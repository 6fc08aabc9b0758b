/** Exactly when a stop or a selection leaves the mixer paths out of step with the devices in use, whatever
    cards the listed use cases have. The log is followed one device at a time. */
module MixerPaths {
  import opened Options
  import opened SndDevices
  import opened Board
  import opened BoardProperties

  /* ---- One device ---- */

  // What one device has seen: whether its events alternate, whether its path is live, and its count.
  datatype Spot = Spot(paired: bool, live: bool, users: int)

  predicate PairedAt(log: seq<MixerEvent>, d: int) {
    log == [] ||
    (var before := log[..|log| - 1];
     PairedAt(before, d) && (log[|log| - 1].d == d ==> PairedStep(Live(before), log[|log| - 1])))
  }

  function At(b: Board, d: int): Spot
    requires |b.cnt| == SND_DEVICE_MAX
  {
    Spot(PairedAt(b.log, d), d in Live(b.log), if Named(d) then b.cnt[d] else 0)
  }

  predicate Fine(s: Spot) { s.paired && (s.live <==> s.users > 0) }

  // One more user, who applies the path only as the first, and one user fewer, who resets it only as the
  // last; without the card neither touches it.
  function Rise(s: Spot, card: bool): Spot {
    if s.users == 0 && card then Spot(s.paired && !s.live, true, 1) else s.(users := s.users + 1)
  }

  function Fall(s: Spot, card: bool): Spot {
    if s.users <= 0 then s
    else if s.users == 1 && card then Spot(s.paired && s.live, false, 0)
    else s.(users := s.users - 1)
  }

  lemma SpotAfterEvent(log: seq<MixerEvent>, e: MixerEvent, d: int)
    ensures PairedAt(log + [e], d) <==> PairedAt(log, d) && (e.d == d ==> PairedStep(Live(log), e))
    ensures d in Live(log + [e]) <==> if e.d == d then e.Apply? else d in Live(log)
  {
    LiveAfter(log, e);
    assert (log + [e])[..|log|] == log;
  }

  lemma {:induction false} PairedGivesEach(log: seq<MixerEvent>, d: int)
    requires Paired(log)
    ensures PairedAt(log, d)
  {
    if log == [] {
    } else {
      PairedGivesEach(log[..|log| - 1], d);
    }
  }

  lemma {:induction false} EachGivesPaired(log: seq<MixerEvent>) returns (d: int)
    ensures PairedAt(log, d) ==> Paired(log)
  {
    if log == [] {
      d := 0;
    } else {
      d := EachGivesPaired(log[..|log| - 1]);
      if Paired(log[..|log| - 1]) {
        d := log[|log| - 1].d;
      }
    }
  }

  // The agreement of paths and counts is the agreement at every device.
  lemma AgreesEach(b: Board)
    requires |b.cnt| == SND_DEVICE_MAX && forall d :: 0 <= d < SND_DEVICE_MAX ==> b.cnt[d] >= 0
    ensures Agrees(b) <==> forall d :: Fine(At(b, d))
  {
    if Agrees(b) {
      forall d ensures Fine(At(b, d)) {
        PairedGivesEach(b.log, d);
      }
    }
    if forall d :: Fine(At(b, d)) {
      var d := EachGivesPaired(b.log);
      assert Fine(At(b, d));
      forall d ensures d in Live(b.log) <==> Named(d) && b.cnt[d] > 0 {
        assert Fine(At(b, d));
      }
    }
  }

  lemma EnableSpot(b: Board, card: bool, d: int, e: int)
    requires |b.cnt| == SND_DEVICE_MAX && Named(d) && b.cnt[d] >= 0
    ensures At(Enable(b, card, d), e) == if e == d then Rise(At(b, d), card) else At(b, e)
  {
    SpotAfterEvent(b.log, Apply(d), e);
  }

  lemma DisableSpot(b: Board, card: bool, d: int, e: int)
    requires |b.cnt| == SND_DEVICE_MAX && Named(d)
    ensures At(Disable(b, card, d), e) == if e == d then Fall(At(b, d), card) else At(b, e)
  {
    SpotAfterEvent(b.log, Reset(d), e);
  }

  /* ---- Many users ---- */

  function Rises(s: Spot, cards: seq<bool>): Spot
    decreases |cards|
  {
    if cards == [] then s else Rises(Rise(s, cards[0]), cards[1..])
  }

  function Falls(s: Spot, cards: seq<bool>): Spot
    decreases |cards|
  {
    if cards == [] then s else Falls(Fall(s, cards[0]), cards[1..])
  }

  // Only the first to come counts, and only when nobody was there.
  lemma {:induction false} RisesFine(s: Spot, cards: seq<bool>)
    requires s.users >= 0
    ensures Rises(s, cards).users == s.users + |cards|
    ensures Fine(Rises(s, cards))
       <==> if cards == [] || s.users > 0 then Fine(s) else s.paired && (cards[0] <==> !s.live)
    decreases |cards|
  {
    if cards == [] {
    } else {
      RisesFine(Rise(s, cards[0]), cards[1..]);
    }
  }

  // Only the last to leave counts, and only when nobody stays.
  lemma {:induction false} FallsFine(s: Spot, cards: seq<bool>)
    requires s.users >= |cards|
    ensures Falls(s, cards).users == s.users - |cards|
    ensures Fine(Falls(s, cards))
       <==> if cards == [] || s.users > |cards| then Fine(s) else s.paired && (cards[|cards| - 1] <==> s.live)
    decreases |cards|
  {
    if cards == [] {
    } else {
      FallsFine(Fall(s, cards[0]), cards[1..]);
    }
  }

  lemma {:induction false} RisesAppend(s: Spot, cards: seq<bool>, card: bool)
    ensures Rises(s, cards + [card]) == Rise(Rises(s, cards), card)
    decreases |cards|
  {
    if cards == [] {
      assert ([] + [card])[1..] == [];
    } else {
      assert (cards + [card])[1..] == cards[1..] + [card];
      RisesAppend(Rise(s, cards[0]), cards[1..], card);
    }
  }

  /* ---- The second pass of check_and_route_usecases ---- */

  // The cards of the entries that move, in list order, and of those of them that leave device e.
  function Movers(list: seq<Usecase>, ids: set<UsecaseId>): seq<bool> {
    if list == [] then []
    else (if list[0].id in ids then [list[0].card] else []) + Movers(list[1..], ids)
  }

  function Leavers(list: seq<Usecase>, ids: set<UsecaseId>, k: Kind, e: int): seq<bool> {
    if list == [] then []
    else (if list[0].id in ids && DeviceOf(list[0], k) == e then [list[0].card] else []) + Leavers(list[1..], ids, k, e)
  }

  lemma MoveSpot(b: Board, j: nat, k: Kind, d: int, e: int)
    requires |b.cnt| == SND_DEVICE_MAX && j < |b.list| && Named(DeviceOf(b.list[j], k)) && Named(d)
    requires b.cnt[d] >= 0 && DeviceOf(b.list[j], k) != d
    ensures At(Move(b, j, k, d), e)
         == if e == d then Rise(At(b, d), b.list[j].card)
            else if e == DeviceOf(b.list[j], k) then Fall(At(b, e), b.list[j].card)
            else At(b, e)
    ensures Move(b, j, k, d).cnt[d] >= 0
  {
    var u := b.list[j];
    DisableSpot(b, u.card, DeviceOf(u, k), e);
    DisableSpot(b, u.card, DeviceOf(u, k), d);
    EnableSpot(Disable(b, u.card, DeviceOf(u, k)), u.card, d, e);
  }

  lemma MoversStep(list: seq<Usecase>, ids: set<UsecaseId>, k: Kind, e: int, s: Spot)
    requires list != []
    ensures var u := list[0];
      && Rises(s, Movers(list, ids)) == Rises(if u.id in ids then Rise(s, u.card) else s, Movers(list[1..], ids))
      && Falls(s, Leavers(list, ids, k, e))
           == Falls(if u.id in ids && DeviceOf(u, k) == e then Fall(s, u.card) else s, Leavers(list[1..], ids, k, e))
  {
    var c := list[0].card;
    assert ([c] + Movers(list[1..], ids))[1..] == Movers(list[1..], ids);
    assert [] + Movers(list[1..], ids) == Movers(list[1..], ids);
    assert ([c] + Leavers(list[1..], ids, k, e))[1..] == Leavers(list[1..], ids, k, e);
    assert [] + Leavers(list[1..], ids, k, e) == Leavers(list[1..], ids, k, e);
  }

  lemma {:induction false} MoveMarkedSpot(b: Board, j: nat, ids: set<UsecaseId>, k: Kind, d: int, e: int)
    requires |b.cnt| == SND_DEVICE_MAX && j <= |b.list| && AllNamed(b.list) && Named(d) && b.cnt[d] >= 0
    requires forall m :: j <= m < |b.list| && b.list[m].id in ids ==> DeviceOf(b.list[m], k) != d
    ensures At(MoveMarked(b, j, ids, k, d), e)
         == if e == d then Rises(At(b, d), Movers(b.list[j..], ids))
            else Falls(At(b, e), Leavers(b.list[j..], ids, k, e))
    decreases |b.list| - j
  {
    var rest := b.list[j..];
    if j == |b.list| {
    } else {
      assert rest[0] == b.list[j] && rest[1..] == b.list[j + 1..];
      MoversStep(rest, ids, k, e, At(b, e));
      hide Movers, Leavers, Rises, Falls;
      if b.list[j].id in ids {
        MoveSpot(b, j, k, d, e);
        var b1 := Move(b, j, k, d);
        assert b1.list[j + 1..] == b.list[j + 1..];
        hide At, Rise, Fall, Enable, Disable;
        MoveMarkedSpot(b1, j + 1, ids, k, d, e);
      } else {
        MoveMarkedSpot(b, j + 1, ids, k, d, e);
      }
    }
  }

  /* ---- Who moves ---- */

  // No other entry is on device d.
  predicate Vacant(list: seq<Usecase>, i: nat, d: int) {
    forall j :: 0 <= j < |list| && j != i ==> list[j].out != d
  }

  predicate IsOtherPlayback(list: seq<Usecase>, i: nat, j: nat)
    requires j < |list|
  {
    j != i && KindOf(list[j].id) == Playback
  }

  // The first other playback stream lacks the card, or there is none and entry i lacks it.
  predicate FirstIsBare(list: seq<Usecase>, i: nat)
    requires i < |list|
  {
    || (exists j :: 0 <= j < |list| && IsOtherPlayback(list, i, j) && !list[j].card
          && forall m :: 0 <= m < j ==> !IsOtherPlayback(list, i, m))
    || (!list[i].card && forall m :: 0 <= m < |list| ==> !IsOtherPlayback(list, i, m))
  }

  // Everybody on device d goes with entry i, and the last of them lacks the card: entry i goes first, the
  // other playback streams follow in list order.
  predicate LeftByBare(list: seq<Usecase>, i: nat, d: int)
    requires i < |list|
  {
    && (forall j :: 0 <= j < |list| && list[j].out == d ==> j == i || KindOf(list[j].id) == Playback)
    && (|| (exists j :: 0 <= j < |list| && IsLastOn(list, i, d, j) && !list[j].card)
        || (list[i].out == d && !list[i].card && Vacant(list, i, d)))
  }

  predicate IsLastOn(list: seq<Usecase>, i: nat, d: int, j: nat)
    requires j < |list|
  {
    j != i && list[j].out == d && forall m :: j < m < |list| && m != i ==> list[m].out != d
  }

  // Giving entry i the output device `out` leaves some path out of step.
  predicate MissesPath(list: seq<Usecase>, i: nat, out: int)
    requires i < |list|
  {
    if out == NONE then list[i].out != NONE && !list[i].card && Vacant(list, i, list[i].out)
    else
      || (Vacant(list, i, out) && FirstIsBare(list, i))
      || (exists d :: NONE < d < IN_BEGIN && d != out && LeftByBare(list, i, d))
  }

  // Calls and capture streams always have the card.
  predicate OthersCarded(list: seq<Usecase>) {
    forall i :: 0 <= i < |list| && KindOf(list[i].id) != Playback ==> list[i].card
  }

  lemma {:induction false} FirstMover(list: seq<Usecase>, ids: set<UsecaseId>) returns (j: nat)
    ensures Movers(list, ids) == [] ==> forall m :: 0 <= m < |list| ==> list[m].id !in ids
    ensures Movers(list, ids) != [] ==>
      && j < |list| && list[j].id in ids && Movers(list, ids)[0] == list[j].card
      && forall m :: 0 <= m < j ==> list[m].id !in ids
  {
    if list == [] {
      j := 0;
    } else if list[0].id in ids {
      j := 0;
    } else {
      assert [] + Movers(list[1..], ids) == Movers(list[1..], ids);
      j := FirstMover(list[1..], ids);
      j := j + 1;
      assert forall m :: 0 < m < |list| ==> list[m] == list[1..][m - 1];
    }
  }

  lemma {:induction false} LastLeaver(list: seq<Usecase>, ids: set<UsecaseId>, k: Kind, e: int) returns (j: nat)
    ensures var l := Leavers(list, ids, k, e);
      && (l == [] ==> forall m :: 0 <= m < |list| && list[m].id in ids ==> DeviceOf(list[m], k) != e)
      && (l != [] ==>
            && j < |list| && list[j].id in ids && DeviceOf(list[j], k) == e && l[|l| - 1] == list[j].card
            && forall m :: j < m < |list| && list[m].id in ids ==> DeviceOf(list[m], k) != e)
  {
    j := 0;
    if list == [] {
    } else {
      var rest := Leavers(list[1..], ids, k, e);
      j := LastLeaver(list[1..], ids, k, e);
      assert forall m :: 0 < m < |list| ==> list[m] == list[1..][m - 1];
      if rest == [] {
        j := 0;
      } else {
        j := j + 1;
      }
    }
  }

  lemma {:induction false} LeaversCount(list: seq<Usecase>, ids: set<UsecaseId>, e: int)
    requires AllShaped(list) && IsOut(e)
    ensures Users(list, e) >= |Leavers(list, ids, Playback, e)|
    ensures Users(list, e) == |Leavers(list, ids, Playback, e)|
       <==> forall m :: 0 <= m < |list| && list[m].out == e ==> list[m].id in ids
  {
    if list == [] {
    } else {
      assert Shaped(list[0]);
      assert forall m :: 0 < m < |list| ==> list[m] == list[1..][m - 1];
      assert forall m :: 0 <= m < |list[1..]| ==> list[1..][m] == list[m + 1];
      LeaversCount(list[1..], ids, e);
    }
  }

  lemma {:induction false} NoLeavers(list: seq<Usecase>, ids: set<UsecaseId>, k: Kind, e: int)
    requires forall m :: 0 <= m < |list| ==> DeviceOf(list[m], k) != e
    ensures Leavers(list, ids, k, e) == []
  {
    if list == [] {
    } else {
      NoLeavers(list[1..], ids, k, e);
    }
  }

  lemma {:induction false} CardedMove(list: seq<Usecase>, ids: set<UsecaseId>, k: Kind, e: int)
    requires forall m :: 0 <= m < |list| && list[m].id in ids ==> list[m].card
    ensures false !in Movers(list, ids) && false !in Leavers(list, ids, k, e)
  {
    if list == [] {
    } else {
      assert forall m :: 0 <= m < |list[1..]| ==> list[1..][m] == list[m + 1];
      CardedMove(list[1..], ids, k, e);
    }
  }

  /* ---- One selection, device by device ---- */

  // The routing pass for entry i towards d, and the enable that follows it.
  lemma RouteSpot(b: Board, i: nat, k: Kind, d: int, e: int)
    requires |b.cnt| == SND_DEVICE_MAX && i < |b.list| && UniqueStreams(b.list) && AllNamed(b.list) && k != VoiceCall
    requires Named(d) && b.cnt[d] >= 0
    ensures var ids := Marked(b.list, |b.list|, i, k, d);
      At(RouteAndEnable(b, i, k, d), e)
      == if d == NONE then At(b, e)
         else if e == d then Rises(At(b, d), Movers(b.list, ids) + [b.list[i].card])
         else Falls(At(b, e), Leavers(b.list, ids, k, e))
  {
    if d != NONE {
      var ids := Marked(b.list, |b.list|, i, k, d);
      forall m | 0 <= m < |b.list| && b.list[m].id in ids ensures DeviceOf(b.list[m], k) != d {
        MarkedExactly(b.list, i, k, d, m);
      }
      assert b.list[0..] == b.list;
      MoveMarkedSpot(b, 0, ids, k, d, e);
      MoveMarkedSpot(b, 0, ids, k, d, d);
      RisesFine(At(b, d), Movers(b.list, ids));
      EnableSpot(CheckAndRoute(b, i, k, d), b.list[i].card, d, e);
      RisesAppend(At(b, d), Movers(b.list, ids), b.list[i].card);
    }
  }

  lemma DisableIfSetSpot(b: Board, card: bool, d: int, e: int)
    requires |b.cnt| == SND_DEVICE_MAX && Named(d)
    ensures At(DisableIfSet(b, card, d), e) == if d != NONE && e == d then Fall(At(b, e), card) else At(b, e)
  {
    DisableSpot(b, card, d, e);
  }

  // What one selection does to output device e.
  function OutSpot(list: seq<Usecase>, s: Spot, i: nat, out: int, e: int): Spot
    requires i < |list|
  {
    var ids := Marked(list, |list|, i, Playback, out);
    var s1 := if list[i].out == e then Fall(s, list[i].card) else s;
    if out == NONE then s1
    else if e == out then Rises(s1, Movers(list, ids) + [list[i].card])
    else Falls(s1, Leavers(list, ids, Playback, e))
  }

  // Entry i gives up its devices.
  function Released(b: Board, i: nat): (r: Board)
    requires |b.cnt| == SND_DEVICE_MAX && i < |b.list|
    ensures |r.cnt| == SND_DEVICE_MAX && r.list == b.list
  {
    DisableIfSet(DisableIfSet(b, b.list[i].card, b.list[i].out), b.list[i].card, b.list[i].inp)
  }

  lemma ReleasedSpot(b: Board, i: nat, e: int)
    requires Sound(b) && i < |b.list|
    ensures At(Released(b, i), e)
         == if e != NONE && (b.list[i].out == e || b.list[i].inp == e) then Fall(At(b, e), b.list[i].card) else At(b, e)
    ensures forall d :: 0 <= d < SND_DEVICE_MAX ==> Released(b, i).cnt[d] >= 0
  {
    var u := b.list[i];
    assert Shaped(u);
    var b0 := DisableIfSet(b, u.card, u.out);
    DisableIfSetSpot(b, u.card, u.out, e);
    DisableIfSetSpot(b0, u.card, u.inp, e);
  }

  // Routing capture leaves the output side alone.
  lemma RouteKeepsOuts(b: Board, i: nat, inp: int, e: int)
    requires |b.cnt| == SND_DEVICE_MAX && i < |b.list| && UniqueStreams(b.list) && AllNamed(b.list)
    requires (inp == NONE || IsIn(inp)) && (Named(inp) ==> b.cnt[inp] >= 0) && IsOut(e)
    requires forall m :: 0 <= m < |b.list| ==> b.list[m].inp != e
    ensures At(RouteAndEnable(b, i, Capture, inp), e) == At(b, e)
  {
    RouteSpot(b, i, Capture, inp, e);
    NoLeavers(b.list, Marked(b.list, |b.list|, i, Capture, inp), Capture, e);
  }

  function RoutedBoth(b: Board, i: nat, out: int, inp: int): Board
    requires |b.cnt| == SND_DEVICE_MAX && i < |b.list|
  {
    RouteAndEnable(RouteAndEnable(b, i, Playback, out), i, Capture, inp)
  }

  lemma RoutedBothSpot(b: Board, i: nat, out: int, inp: int, e: int)
    requires |b.cnt| == SND_DEVICE_MAX && i < |b.list| && UniqueStreams(b.list) && AllShaped(b.list)
    requires forall d :: 0 <= d < SND_DEVICE_MAX ==> b.cnt[d] >= 0
    requires (out == NONE || IsOut(out)) && (inp == NONE || IsIn(inp)) && IsOut(e)
    ensures At(RoutedBoth(b, i, out, inp), e) == At(RouteAndEnable(b, i, Playback, out), e)
  {
    RouteKeepsIns(b, i, out);
    hide RouteAndEnable;
    var r := RouteAndEnable(b, i, Playback, out);
    forall m | 0 <= m < |r.list| ensures r.list[m].inp != e {
      assert Shaped(b.list[m]);
    }
    assert IsIn(inp) ==> At(r, inp) == At(b, inp);
    RouteKeepsOuts(r, i, inp, e);
  }

  lemma AssignIsRouted(b: Board, i: nat, out: int, inp: int, e: int)
    requires |b.cnt| == SND_DEVICE_MAX && i < |b.list|
    requires !(out == b.list[i].out && inp == b.list[i].inp)
    ensures At(Assign(b, i, out, inp), e) == At(RoutedBoth(Released(b, i), i, out, inp), e)
  {
    hide RouteAndEnable, DisableIfSet;
  }

  lemma AssignSpotOut(b: Board, i: nat, out: int, inp: int, e: int)
    requires Sound(b) && i < |b.list| && Fits(b.list[i].id, out, inp) && IsOut(e)
    requires !(out == b.list[i].out && inp == b.list[i].inp)
    ensures At(Assign(b, i, out, inp), e) == OutSpot(b.list, At(b, e), i, out, e)
  {
    assert Shaped(b.list[i]);
    ShapedNamed(b.list);
    var b1 := Released(b, i);
    ReleasedSpot(b, i, e);
    hide Released;
    AssignIsRouted(b, i, out, inp, e);
    RoutedBothSpot(b1, i, out, inp, e);
    RouteSpot(b1, i, Playback, out, e);
    hide Assign, RoutedBoth, RouteAndEnable, At, Marked, Movers, Leavers, Rises, Falls, Rise, Fall;
  }

  lemma ShapedNamed(list: seq<Usecase>)
    requires AllShaped(list)
    ensures AllNamed(list)
  {
    forall i | 0 <= i < |list| ensures Named(list[i].out) && Named(list[i].inp) {
      assert Shaped(list[i]);
    }
  }

  // Routing playback leaves the input side of the board alone.
  lemma RouteKeepsIns(b: Board, i: nat, out: int)
    requires |b.cnt| == SND_DEVICE_MAX && i < |b.list| && UniqueStreams(b.list) && AllShaped(b.list)
    requires (out == NONE || IsOut(out)) && forall d :: 0 <= d < SND_DEVICE_MAX ==> b.cnt[d] >= 0
    ensures var r := RouteAndEnable(b, i, Playback, out);
      && UniqueStreams(r.list) && AllNamed(r.list) && |r.list| == |b.list|
      && (forall m :: 0 <= m < |b.list| ==>
            r.list[m].id == b.list[m].id && r.list[m].card == b.list[m].card && r.list[m].inp == b.list[m].inp)
      && (forall d :: IsIn(d) ==> At(r, d) == At(b, d))
      && r.cnt[NONE] >= 0
  {
    ShapedNamed(b.list);
    RouteAndEnableList(b, i, Playback, out);
    var ids := Marked(b.list, |b.list|, i, Playback, out);
    forall m | 0 <= m < |b.list| ensures b.list[m].out == NONE || IsOut(b.list[m].out) {
      assert Shaped(b.list[m]);
    }
    forall d | IsIn(d) ensures At(RouteAndEnable(b, i, Playback, out), d) == At(b, d) {
      RouteSpot(b, i, Playback, out, d);
      NoLeavers(b.list, ids, Playback, d);
    }
    RouteSpot(b, i, Playback, out, NONE);
    FallsStayCounted(At(b, NONE), Leavers(b.list, ids, Playback, NONE));
  }

  lemma {:induction false} FallsStayCounted(s: Spot, cards: seq<bool>)
    requires s.users >= 0
    ensures Falls(s, cards).users >= 0 && (s.users == 0 ==> Falls(s, cards) == s)
    decreases |cards|
  {
    if cards == [] {
    } else {
      FallsStayCounted(Fall(s, cards[0]), cards[1..]);
    }
  }

  /* ---- When one selection keeps the agreement ---- */

  lemma {:induction false} CardedKeepFine(s: Spot, cards: seq<bool>)
    requires s.users >= 0 && false !in cards
    ensures (Fine(Rises(s, cards)) <==> Fine(s)) && (Fine(Falls(s, cards)) <==> Fine(s))
    decreases |cards|
  {
    if cards == [] {
    } else {
      assert cards[0] in cards && forall c :: c in cards[1..] ==> c in cards;
      CardedKeepFine(Rise(s, cards[0]), cards[1..]);
      CardedKeepFine(Fall(s, cards[0]), cards[1..]);
    }
  }

  // The input side always stays in step, or out of it: whoever moves there has the card.
  lemma AssignElsewhere(b: Board, i: nat, out: int, inp: int, e: int)
    requires Sound(b) && i < |b.list| && Fits(b.list[i].id, out, inp) && OthersCarded(b.list) && !IsOut(e)
    ensures Fine(At(Assign(b, i, out, inp), e)) <==> Fine(At(b, e))
  {
    if !(out == b.list[i].out && inp == b.list[i].inp) {
      var u := b.list[i];
      assert Shaped(u);
      ShapedNamed(b.list);
      AssignIsRouted(b, i, out, inp, e);
      ReleasedSpot(b, i, e);
      var b1 := Released(b, i);
      assert Fine(At(b1, e)) <==> Fine(At(b, e));
      RouteElsewhere(b1, i, out, inp, e);
    }
  }

  lemma RouteElsewhere(b: Board, i: nat, out: int, inp: int, e: int)
    requires |b.cnt| == SND_DEVICE_MAX && i < |b.list| && UniqueStreams(b.list) && AllShaped(b.list) && OthersCarded(b.list)
    requires Fits(b.list[i].id, out, inp) && !IsOut(e) && b.cnt[NONE] == 0
    requires forall d :: 0 <= d < SND_DEVICE_MAX ==> b.cnt[d] >= 0
    ensures Fine(At(RoutedBoth(b, i, out, inp), e)) <==> Fine(At(b, e))
  {
    ShapedNamed(b.list);
    RouteKeepsIns(b, i, out);
    RouteSpot(b, i, Playback, out, e);
    FallsStayCounted(At(b, e), Leavers(b.list, Marked(b.list, |b.list|, i, Playback, out), Playback, e));
    hide RouteAndEnable;
    var r := RouteAndEnable(b, i, Playback, out);
    assert At(r, e) == At(b, e);
    assert IsIn(inp) ==> At(r, inp) == At(b, inp);
    var ids := Marked(r.list, |r.list|, i, Capture, inp);
    forall m | 0 <= m < |r.list| && r.list[m].id in ids ensures r.list[m].card {
      MarkedExactly(r.list, i, Capture, inp, m);
    }
    RouteSpot(r, i, Capture, inp, e);
    CardedMove(r.list, ids, Capture, e);
    if inp != NONE {
      CardedKeepFine(At(r, e), Movers(r.list, ids) + [r.list[i].card]);
    }
    CardedKeepFine(At(r, e), Leavers(r.list, ids, Capture, e));
  }

  lemma {:induction false} UsersAre(list: seq<Usecase>, d: int)
    ensures Users(list, d) > 0 <==> exists j :: 0 <= j < |list| && (list[j].out == d || list[j].inp == d)
  {
    if list == [] {
    } else {
      UsersAre(list[1..], d);
      assert forall j :: 0 < j < |list| ==> list[j] == list[1..][j - 1];
      if Users(list[1..], d) > 0 {
        var j :| 0 <= j < |list[1..]| && (list[1..][j].out == d || list[1..][j].inp == d);
        assert list[j + 1] == list[1..][j];
      }
    }
  }

  lemma UsersWhenVacant(list: seq<Usecase>, i: nat, e: int)
    requires i < |list| && AllShaped(list) && IsOut(e)
    ensures var own := if list[i].out == e then 1 else 0;
      Users(list, e) >= own && (Users(list, e) == own <==> Vacant(list, i, e))
  {
    var w := Without(list, i);
    UsersSplit(list, i, e);
    UsersAre(w, e);
    assert Shaped(list[i]);
    assert forall j :: 0 <= j < |w| ==> w[j] == list[if j < i then j else j + 1];
    if Vacant(list, i, e) {
      forall j | 0 <= j < |w| ensures w[j].out != e && w[j].inp != e {
        assert Shaped(w[j]);
      }
    } else {
      var j :| 0 <= j < |list| && j != i && list[j].out == e;
      assert w[if j < i then j else j - 1].out == e;
    }
  }

  lemma {:induction false} LeaversUpdate(list: seq<Usecase>, i: nat, u: Usecase, ids: set<UsecaseId>, e: int)
    requires i < |list| && list[i].id == u.id && u.id !in ids
    ensures Leavers(list[i := u], ids, Playback, e) == Leavers(list, ids, Playback, e)
    decreases i
  {
    if i == 0 {
      assert list[0 := u][1..] == list[1..];
    } else {
      assert list[i := u][1..] == list[1..][i - 1 := u];
      LeaversUpdate(list[1..], i - 1, u, ids, e);
    }
  }

  // Those who leave e with entry i, entry i not counted, and when nobody else stays.
  lemma LeaversBesides(list: seq<Usecase>, i: nat, ids: set<UsecaseId>, e: int)
    requires i < |list| && AllShaped(list) && IsOut(e) && list[i].id !in ids
    ensures var n := |Leavers(list, ids, Playback, e)| + if list[i].out == e then 1 else 0;
      && Users(list, e) >= n
      && (Users(list, e) == n <==> forall m :: 0 <= m < |list| && m != i && list[m].out == e ==> list[m].id in ids)
  {
    var w := list[i].(out := NONE, inp := NONE);
    UsersUpdate(list, i, w, e);
    LeaversUpdate(list, i, w, ids, e);
    assert Shaped(list[i]);
    LeaversCount(list[i := w], ids, e);
    assert forall m :: 0 <= m < |list| ==> list[i := w][m] == if m == i then w else list[m];
  }

  // Where the output side is missed, device by device.
  predicate MissesAt(list: seq<Usecase>, i: nat, out: int, e: int)
    requires i < |list|
  {
    if out == NONE then list[i].out == e && !list[i].card && Vacant(list, i, e)
    else if e == out then Vacant(list, i, out) && FirstIsBare(list, i)
    else LeftByBare(list, i, e)
  }

  // A stream changes its device, or the entry is a call, which has the card.
  predicate Moves(list: seq<Usecase>, i: nat, out: int)
    requires i < |list|
  {
    list[i].out == out && out != NONE ==> list[i].card
  }

  lemma OutFineAtTarget(list: seq<Usecase>, s: Spot, i: nat, out: int)
    requires i < |list| && AllShaped(list) && UniqueStreams(list) && IsOut(out) && s.users == Users(list, out) && Moves(list, i, out)
    ensures Fine(OutSpot(list, s, i, out, out))
       <==> if Vacant(list, i, out) && FirstIsBare(list, i) then s.paired && s.live && s.users == 0 else Fine(s)
  {
    var ids := Marked(list, |list|, i, Playback, out);
    var s1 := if list[i].out == out then Fall(s, list[i].card) else s;
    UsersWhenVacant(list, i, out);
    var j := FirstMover(list, ids);
    forall m | 0 <= m < |list| ensures list[m].id in ids <==> Misplaced(list, m, i, Playback, out) {
      MarkedExactly(list, i, Playback, out, m);
    }
    var cs := Movers(list, ids) + [list[i].card];
    assert Vacant(list, i, out) ==> (FirstIsBare(list, i) <==> !cs[0]) by {
      if Vacant(list, i, out) {
        assert forall m :: 0 <= m < |list| ==> (IsOtherPlayback(list, i, m) <==> list[m].id in ids);
      }
    }
    RisesFine(s1, cs);
  }

  lemma OutFineElsewhere(list: seq<Usecase>, s: Spot, i: nat, out: int, e: int)
    requires i < |list| && AllShaped(list) && UniqueStreams(list) && IsOut(out) && IsOut(e) && e != out && s.users == Users(list, e)
    ensures Fine(OutSpot(list, s, i, out, e)) <==> if LeftByBare(list, i, e) then s.paired && !s.live else Fine(s)
  {
    var ids := Marked(list, |list|, i, Playback, out);
    var l := Leavers(list, ids, Playback, e);
    forall m | 0 <= m < |list| ensures list[m].id in ids <==> Misplaced(list, m, i, Playback, out) {
      MarkedExactly(list, i, Playback, out, m);
    }
    LeaversBesides(list, i, ids, e);
    UsersWhenVacant(list, i, e);
    var j := LastLeaver(list, ids, Playback, e);
    var c := list[i].card;
    var all := if list[i].out == e then [c] + l else l;
    assert ([c] + l)[1..] == l;
    assert OutSpot(list, s, i, out, e) == Falls(s, all);
    FallsFine(s, all);
    LeftByLast(list, i, out, e, l, j);
  }

  // The last to leave e is the last leaver of the pass, or entry i when there is none.
  lemma LeftByLast(list: seq<Usecase>, i: nat, out: int, e: int, l: seq<bool>, j: nat)
    requires i < |list| && e != out
    requires l == [] ==> forall m :: 0 <= m < |list| && Misplaced(list, m, i, Playback, out) ==> list[m].out != e
    requires l != [] ==>
      && j < |list| && Misplaced(list, j, i, Playback, out) && list[j].out == e && l[|l| - 1] == list[j].card
      && forall m :: j < m < |list| && Misplaced(list, m, i, Playback, out) ==> list[m].out != e
    ensures LeftByBare(list, i, e)
       <==> && (forall m :: 0 <= m < |list| && m != i && list[m].out == e ==> Misplaced(list, m, i, Playback, out))
            && (if l == [] then list[i].out == e && !list[i].card else !l[|l| - 1])
  {
    var gone := forall m :: 0 <= m < |list| && m != i && list[m].out == e ==> Misplaced(list, m, i, Playback, out);
    assert gone <==> forall m :: 0 <= m < |list| && list[m].out == e ==> m == i || KindOf(list[m].id) == Playback;
    if gone && l != [] {
      assert IsLastOn(list, i, e, j);
    }
  }

  lemma StreamMoves(list: seq<Usecase>, i: nat, out: int, inp: int)
    requires i < |list| && AllShaped(list) && OthersCarded(list) && Fits(list[i].id, out, inp)
    requires !(out == list[i].out && inp == list[i].inp)
    ensures Moves(list, i, out)
  {
    assert Shaped(list[i]);
  }

  lemma CountsUsers(b: Board, e: int)
    requires Exact(b)
    ensures IsOut(e) ==> At(b, e).users == Users(b.list, e)
    ensures forall d :: 0 <= d < SND_DEVICE_MAX ==> b.cnt[d] >= 0
  {
  }

  lemma AssignFineAt(b: Board, i: nat, out: int, inp: int, e: int)
    requires Sound(b) && i < |b.list| && Fits(b.list[i].id, out, inp) && OthersCarded(b.list) && IsOut(e) && Fine(At(b, e))
    requires !(out == b.list[i].out && inp == b.list[i].inp)
    ensures Fine(At(Assign(b, i, out, inp), e)) <==> !MissesAt(b.list, i, out, e)
  {
    var s := At(b, e);
    CountsUsers(b, e);
    StreamMoves(b.list, i, out, inp);
    AssignSpotOut(b, i, out, inp, e);
    hide Assign, At, FirstIsBare, LeftByBare;
    if out == NONE {
      UsersWhenVacant(b.list, i, e);
    } else if e == out {
      OutFineAtTarget(b.list, s, i, out);
    } else {
      OutFineElsewhere(b.list, s, i, out, e);
      hide OutSpot;
      if LeftByBare(b.list, i, e) {
        LeftHasUsers(b.list, i, e);
      }
    }
  }

  lemma LeftHasUsers(list: seq<Usecase>, i: nat, e: int)
    requires i < |list| && LeftByBare(list, i, e)
    ensures Users(list, e) > 0
  {
    UsersAre(list, e);
  }

  // Main result: a selection keeps the agreement exactly when it returns early or misses no path.
  lemma AssignAgreesIff(b: Board, i: nat, out: int, inp: int)
    requires Sound(b) && Agrees(b) && OthersCarded(b.list) && i < |b.list| && Fits(b.list[i].id, out, inp)
    ensures Agrees(Assign(b, i, out, inp))
       <==> (out == b.list[i].out && inp == b.list[i].inp) || !MissesPath(b.list, i, out)
  {
    var same := out == b.list[i].out && inp == b.list[i].inp;
    if !same {
      AssignKeepsSound(b, i, out, inp);
      var a := Assign(b, i, out, inp);
      CountsUsers(a, NONE);
      CountsUsers(b, NONE);
      AgreesEach(b);
      AgreesEach(a);
      forall e ensures Fine(At(a, e)) <==> !(IsOut(e) && MissesAt(b.list, i, out, e)) {
        if IsOut(e) {
          AssignFineAt(b, i, out, inp, e);
        } else {
          AssignElsewhere(b, i, out, inp, e);
        }
      }
      hide Assign, Agrees, Fine, At, Sound;
      MissesSomewhere(b.list, i, out);
    }
  }

  lemma MissesSomewhere(list: seq<Usecase>, i: nat, out: int)
    requires i < |list| && (list[i].out == NONE || IsOut(list[i].out)) && (out == NONE || IsOut(out))
    ensures MissesPath(list, i, out) <==> exists e :: IsOut(e) && MissesAt(list, i, out, e)
  {
    hide FirstIsBare, LeftByBare;
    if MissesPath(list, i, out) {
      if out == NONE {
        assert MissesAt(list, i, out, list[i].out);
      } else if Vacant(list, i, out) && FirstIsBare(list, i) {
        assert MissesAt(list, i, out, out);
      } else {
        var d :| NONE < d < IN_BEGIN && d != out && LeftByBare(list, i, d);
        assert MissesAt(list, i, out, d);
      }
    }
  }

  // A device that is live without users is mended exactly by a bare first user.
  lemma AssignMends(b: Board, i: nat, out: int, inp: int, e: int)
    requires Sound(b) && i < |b.list| && Fits(b.list[i].id, out, inp) && OthersCarded(b.list)
    requires IsOut(e) && At(b, e) == Spot(true, true, 0)
    ensures Fine(At(Assign(b, i, out, inp), e)) <==> e == out && FirstIsBare(b.list, i)
  {
    CountsUsers(b, e);
    UsersWhenVacant(b.list, i, e);
    if !(out == b.list[i].out && inp == b.list[i].inp) {
      StreamMoves(b.list, i, out, inp);
      AssignSpotOut(b, i, out, inp, e);
      hide Assign, FirstIsBare;
      if out == NONE {
      } else if e == out {
        OutFineAtTarget(b.list, At(b, e), i, out);
      } else {
        OutFineElsewhere(b.list, At(b, e), i, out, e);
        if LeftByBare(b.list, i, e) {
          LeftHasUsers(b.list, i, e);
        }
      }
    }
  }

  // A call that goes to NONE, or where a playback stream is already, changes nothing for better or worse.
  lemma CallJoins(b: Board, i: nat, out: int, inp: int, j: nat, e: int)
    requires Sound(b) && i < |b.list| && j < |b.list| && b.list[i].id == ID_VOICE_CALL && OthersCarded(b.list)
    requires Fits(b.list[i].id, out, inp)
    requires out == NONE || (KindOf(b.list[j].id) == Playback && b.list[j].out == out)
    ensures Fine(At(Assign(b, i, out, inp), e)) <==> Fine(At(b, e))
  {
    if out == b.list[i].out && inp == b.list[i].inp {
    } else if !IsOut(e) {
      AssignElsewhere(b, i, out, inp, e);
    } else {
      CountsUsers(b, e);
      StreamMoves(b.list, i, out, inp);
      AssignSpotOut(b, i, out, inp, e);
      hide Assign, FirstIsBare;
      if out == NONE {
      } else if e == out {
        OutFineAtTarget(b.list, At(b, e), i, out);
        assert !Vacant(b.list, i, out);
      } else {
        OutFineElsewhere(b.list, At(b, e), i, out, e);
        SharedLeavesNobody(b.list, i, j, e);
      }
    }
  }

  lemma SharedLeavesNobody(list: seq<Usecase>, i: nat, j: nat, e: int)
    requires i < |list| && j < |list| && SharedBackend(list) && KindOf(list[j].id) == Playback && list[i].card
    requires list[j].out != e && list[j].out != NONE && e != NONE
    ensures !LeftByBare(list, i, e)
  {
    forall m | 0 <= m < |list| && KindOf(list[m].id) == Playback
      ensures list[m].out == NONE || list[m].out == list[j].out
    {
    }
  }

  /* ---- When a stop keeps it ---- */

  // The entry is the last on its device and lacks the card.
  predicate MissesReset(list: seq<Usecase>, i: nat)
    requires i < |list|
  {
    !list[i].card && list[i].out != NONE && Vacant(list, i, list[i].out)
  }

  lemma DropSpot(b: Board, i: nat, e: int)
    requires Sound(b) && i < |b.list|
    ensures At(Drop(b, i), e)
         == if e != NONE && (b.list[i].out == e || b.list[i].inp == e) then Fall(At(b, e), b.list[i].card) else At(b, e)
  {
    DropAsDisables(b, i);
    ReleasedSpot(b, i, e);
  }

  lemma DropFineAt(b: Board, i: nat, e: int)
    requires Sound(b) && i < |b.list| && OthersCarded(b.list) && Fine(At(b, e))
    ensures Fine(At(Drop(b, i), e)) <==> !(e == b.list[i].out && MissesReset(b.list, i))
    ensures e == b.list[i].out && MissesReset(b.list, i) ==> At(Drop(b, i), e) == Spot(true, true, 0)
  {
    assert Shaped(b.list[i]);
    CountsUsers(b, e);
    DropSpot(b, i, e);
    if IsOut(e) {
      UsersWhenVacant(b.list, i, e);
    }
  }

  // Main result: a stop keeps the agreement exactly when the entry has the card, or somebody stays.
  lemma DropAgreesIff(b: Board, i: nat)
    requires Sound(b) && Agrees(b) && OthersCarded(b.list) && i < |b.list|
    ensures Agrees(Drop(b, i)) <==> !MissesReset(b.list, i)
  {
    var a := Drop(b, i);
    DropKeepsSound(b, i);
    CountsUsers(a, NONE);
    CountsUsers(b, NONE);
    AgreesEach(b);
    AgreesEach(a);
    forall e ensures Fine(At(a, e)) <==> !(e == b.list[i].out && MissesReset(b.list, i)) {
      DropFineAt(b, i, e);
    }
    hide Drop, Agrees, Fine, At, Sound;
    var e := b.list[i].out;
    assert Fine(At(a, e)) <==> !MissesReset(b.list, i);
  }

  // A stop while somebody stays, or of an entry with the card, is neither better nor worse.
  lemma DropChangesNothing(b: Board, i: nat)
    requires Sound(b) && i < |b.list| && OthersCarded(b.list) && !MissesReset(b.list, i)
    ensures Agrees(Drop(b, i)) <==> Agrees(b)
  {
    var a := Drop(b, i);
    DropKeepsSound(b, i);
    CountsUsers(a, NONE);
    CountsUsers(b, NONE);
    AgreesEach(b);
    AgreesEach(a);
    forall e ensures Fine(At(a, e)) <==> Fine(At(b, e)) {
      assert Shaped(b.list[i]);
      CountsUsers(b, e);
      DropSpot(b, i, e);
      if IsOut(e) {
        UsersWhenVacant(b.list, i, e);
      }
    }
  }

  lemma {:induction false} NobodyMoves(list: seq<Usecase>, ids: set<UsecaseId>, e: int)
    requires forall m :: 0 <= m < |list| ==> list[m].id !in ids
    ensures Movers(list, ids) == [] && Leavers(list, ids, Playback, e) == []
  {
    if list == [] {
    } else {
      assert forall m :: 0 <= m < |list[1..]| ==> list[1..][m] == list[m + 1];
      NobodyMoves(list[1..], ids, e);
    }
  }

  // The only playback stream that comes and goes leaves everything as it was, with the card or without.
  lemma AloneComesAndGoes(b: Board, i: nat, d: int)
    requires Sound(b) && Agrees(b) && OthersCarded(b.list) && i < |b.list| && IsOut(d)
    requires KindOf(b.list[i].id) == Playback && b.list[i].out == NONE && b.list[i].inp == NONE
    requires forall j :: 0 <= j < |b.list| ==> !IsOtherPlayback(b.list, i, j)
    ensures Agrees(Drop(Assign(b, i, d, NONE), i))
  {
    var a := Assign(b, i, d, NONE);
    AssignKeepsSound(b, i, d, NONE);
    AssignFrame(b, i, d, NONE, i);
    DropKeepsSound(a, i);
    CountsUsers(Drop(a, i), NONE);
    CountsUsers(b, NONE);
    AgreesEach(b);
    AgreesEach(Drop(a, i));
    forall e ensures Fine(At(Drop(a, i), e)) {
      DropSpot(a, i, e);
      if IsOut(e) {
        var ids := Marked(b.list, |b.list|, i, Playback, d);
        forall m | 0 <= m < |b.list| ensures b.list[m].id !in ids {
          MarkedExactly(b.list, i, Playback, d, m);
          assert !IsOtherPlayback(b.list, i, m);
        }
        AssignSpotOut(b, i, d, NONE, e);
        NobodyMoves(b.list, ids, e);
        hide Assign, Drop, Marked;
        ComesAndGoes(At(b, e), b.list[i].card);
      } else {
        AssignElsewhere(b, i, d, NONE, e);
      }
    }
  }

  lemma ComesAndGoes(s: Spot, card: bool)
    requires Fine(s) && s.users >= 0
    ensures Rises(s, [] + [card]) == Rise(s, card) && Fine(Fall(Rise(s, card), card))
  {
    assert ([] + [card])[1..] == [];
  }
}
