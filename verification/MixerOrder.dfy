/** In which order the mixer paths change when the playback streams switch devices. */
module MixerOrder {
  import opened Options
  import opened SndDevices
  import opened Board
  import opened BoardProperties
  import opened MixerPaths

  // The events of the second pass when everybody has the card, `left` marked entries are still on device s,
  // and `come` users are on device d.
  function Events(list: seq<Usecase>, ids: set<UsecaseId>, s: int, d: int, left: nat, come: nat): seq<MixerEvent> {
    if list == [] then []
    else if list[0].id !in ids then Events(list[1..], ids, s, d, left, come)
    else if list[0].out == s && left > 0 then
      (if left == 1 then [Reset(s)] else []) + (if come == 0 then [Apply(d)] else [])
      + Events(list[1..], ids, s, d, left - 1, come + 1)
    else
      (if come == 0 then [Apply(d)] else []) + Events(list[1..], ids, s, d, left, come + 1)
  }

  // Every marked entry is on s, or on no device.
  predicate OnlyOn(list: seq<Usecase>, ids: set<UsecaseId>, s: int) {
    forall m :: 0 <= m < |list| && list[m].id in ids ==> list[m].card && (list[m].out == s || list[m].out == NONE)
  }

  lemma MoveEvents(b: Board, j: nat, s: int, d: int)
    requires |b.cnt| == SND_DEVICE_MAX && j < |b.list| && b.list[j].card && IsOut(s) && IsOut(d) && s != d
    requires b.cnt[NONE] == 0 && b.cnt[s] >= 0 && b.cnt[d] >= 0
    requires b.list[j].out == NONE || (b.list[j].out == s && b.cnt[s] > 0)
    ensures var r := Move(b, j, Playback, d);
      && r.log == b.log + (if b.list[j].out == s && b.cnt[s] == 1 then [Reset(s)] else [])
                        + (if b.cnt[d] == 0 then [Apply(d)] else [])
      && r.cnt[NONE] == 0 && r.cnt[d] == b.cnt[d] + 1
      && r.cnt[s] == if b.list[j].out == s then b.cnt[s] - 1 else b.cnt[s]
  {
  }

  lemma {:induction false} MoveMarkedEvents(b: Board, j: nat, ids: set<UsecaseId>, s: int, d: int)
    requires |b.cnt| == SND_DEVICE_MAX && j <= |b.list| && OnlyOn(b.list[j..], ids, s) && IsOut(s) && IsOut(d) && s != d
    requires b.cnt[NONE] == 0 && b.cnt[d] >= 0 && b.cnt[s] == |Leavers(b.list[j..], ids, Playback, s)|
    ensures MoveMarked(b, j, ids, Playback, d).log == b.log + Events(b.list[j..], ids, s, d, b.cnt[s], b.cnt[d])
    decreases |b.list| - j
  {
    var rest := b.list[j..];
    if j == |b.list| {
      assert b.log + [] == b.log;
    } else {
      assert rest[0] == b.list[j] && rest[1..] == b.list[j + 1..];
      if b.list[j].id in ids {
        MoveEvents(b, j, s, d);
        var b1 := Move(b, j, Playback, d);
        assert b1.list[j + 1..] == b.list[j + 1..];
        MoveMarkedEvents(b1, j + 1, ids, s, d);
        var reset := if b.list[j].out == s && b.cnt[s] == 1 then [Reset(s)] else [];
        var come := if b.cnt[d] == 0 then [Apply(d)] else [];
        hide Move;
        EventsRegroup(b.log, reset, come, Events(rest[1..], ids, s, d, b1.cnt[s], b1.cnt[d]));
      } else {
        MoveMarkedEvents(b, j + 1, ids, s, d);
      }
    }
  }

  lemma EventsRegroup(log: seq<MixerEvent>, a: seq<MixerEvent>, b: seq<MixerEvent>, c: seq<MixerEvent>)
    ensures log + a + b + c == log + (a + b + c)
    ensures [] + b + c == b + c
  {
  }

  // Once somebody is on d, only the last to leave s is heard.
  lemma {:induction false} LateEvents(list: seq<Usecase>, ids: set<UsecaseId>, s: int, d: int, come: nat)
    requires come > 0
    ensures var left := |Leavers(list, ids, Playback, s)|;
      Events(list, ids, s, d, left, come) == if left > 0 then [Reset(s)] else []
  {
    if list == [] {
    } else {
      LateEvents(list[1..], ids, s, d, come);
      LateEvents(list[1..], ids, s, d, come + 1);
    }
  }

  // The first mover, if it is the last on s, leaves before anybody comes; otherwise d is applied first.
  lemma {:induction false} FirstEvents(list: seq<Usecase>, ids: set<UsecaseId>, s: int, d: int, j: nat)
    requires j < |list| && list[j].id in ids && forall m :: 0 <= m < j ==> list[m].id !in ids
    ensures var left := |Leavers(list, ids, Playback, s)|;
      Events(list, ids, s, d, left, 0)
      == if left == 0 then [Apply(d)]
         else if left == 1 && list[j].out == s then [Reset(s), Apply(d)]
         else [Apply(d), Reset(s)]
    decreases j
  {
    if j > 0 {
      assert list[0].id !in ids && list[1..][j - 1] == list[j];
      FirstEvents(list[1..], ids, s, d, j - 1);
    } else {
      LateEvents(list[1..], ids, s, d, 1);
    }
  }

  // The old path is reset before the new one is applied: nobody else is on the old device, or one playback
  // stream is, and it is the first other one in the list.
  predicate ResetsFirst(list: seq<Usecase>, i: nat)
    requires i < |list|
  {
    || Vacant(list, i, list[i].out)
    || exists j :: 0 <= j < |list| && IsFirstOther(list, i, j) && list[j].out == list[i].out
         && forall m :: 0 <= m < |list| && m != i && m != j ==> list[m].out != list[i].out
  }

  predicate IsFirstOther(list: seq<Usecase>, i: nat, j: nat)
    requires j < |list|
  {
    IsOtherPlayback(list, i, j) && forall m :: 0 <= m < j ==> !IsOtherPlayback(list, i, m)
  }

  // A playback stream switches from one device to another, and no call is on either.
  predicate Switches(b: Board, i: nat, out: int) {
    && i < |b.list| && KindOf(b.list[i].id) == Playback && IsOut(b.list[i].out) && IsOut(out) && out != b.list[i].out
    && AllCards(b.list)
    && forall j :: 0 <= j < |b.list| && KindOf(b.list[j].id) == VoiceCall ==> b.list[j].out != b.list[i].out && b.list[j].out != out
  }

  // Everybody the pass moves is on the old device or on none, and nobody is on the new one.
  lemma SwitchMovers(b: Board, i: nat, out: int)
    requires Sound(b) && Switches(b, i, out)
    ensures var s := b.list[i].out;
      var ids := Marked(b.list, |b.list|, i, Playback, out);
      && OnlyOn(b.list, ids, s)
      && (forall m :: 0 <= m < |b.list| ==> (b.list[m].id in ids <==> IsOtherPlayback(b.list, i, m)))
      && b.cnt[out] == 0
      && b.cnt[s] == |Leavers(b.list, ids, Playback, s)| + 1
      && (|Leavers(b.list, ids, Playback, s)| == 0 <==> Vacant(b.list, i, s))
  {
    var s := b.list[i].out;
    var ids := Marked(b.list, |b.list|, i, Playback, out);
    forall m | 0 <= m < |b.list|
      ensures b.list[m].id in ids <==> IsOtherPlayback(b.list, i, m)
      ensures b.list[m].out != out && b.list[m].inp != out
      ensures b.list[m].id in ids ==> b.list[m].out == s || b.list[m].out == NONE
      ensures b.list[m].out == s && m != i ==> b.list[m].id in ids
    {
      assert Shaped(b.list[m]) && Shaped(b.list[i]);
      MarkedExactly(b.list, i, Playback, out, m);
      assert KindOf(b.list[m].id) == Playback && b.list[m].out != NONE ==> b.list[m].out == s by {
        assert m < i || m == i || i < m;
      }
    }
    UsersAre(b.list, out);
    LeaversBesides(b.list, i, ids, s);
    UsersWhenVacant(b.list, i, s);
  }

  // The log and the count of the new device after the routing pass.
  lemma PassLog(b: Board, i: nat, out: int)
    requires Sound(b) && Switches(b, i, out)
    ensures var s := b.list[i].out;
      var ids := Marked(b.list, |b.list|, i, Playback, out);
      var left := |Leavers(b.list, ids, Playback, s)|;
      var r := CheckAndRoute(Disable(b, true, s), i, Playback, out);
      && r.log == b.log + (if left == 0 then [Reset(s)] else []) + Events(b.list, ids, s, out, left, 0)
      && r.cnt[out] == |Movers(b.list, ids)|
  {
    var s := b.list[i].out;
    ShapedNamed(b.list);
    var ids := Marked(b.list, |b.list|, i, Playback, out);
    SwitchMovers(b, i, out);
    var b1 := Disable(b, true, s);
    assert b1.log == b.log + (if b.cnt[s] == 1 then [Reset(s)] else []);
    assert b.list[0..] == b.list;
    hide Enable, Disable, Leavers, Movers, Events;
    MoveMarkedEvents(b1, 0, ids, s, out);
    MoveMarkedSpot(b1, 0, ids, Playback, out, out);
    RisesFine(At(b1, out), Movers(b.list, ids));
  }

  lemma SwitchOrder(b: Board, i: nat, out: int)
    requires Sound(b) && Switches(b, i, out)
    ensures var s := b.list[i].out;
      Assign(b, i, out, NONE).log == b.log + if ResetsFirst(b.list, i) then [Reset(s), Apply(out)] else [Apply(out), Reset(s)]
  {
    var s := b.list[i].out;
    assert Shaped(b.list[i]);
    var ids := Marked(b.list, |b.list|, i, Playback, out);
    var left := |Leavers(b.list, ids, Playback, s)|;
    PassLog(b, i, out);
    SwitchMovers(b, i, out);
    AssignLog(b, i, out);
    var j := FirstMover(b.list, ids);
    EventsOfSwitch(b.list, i, ids, out, j);
    hide Events, Leavers, Movers, ResetsFirst, CheckAndRoute, Disable, Assign, Sound, Marked, OnlyOn;
    EventsRegroup(b.log, if left == 0 then [Reset(s)] else [], Events(b.list, ids, s, out, left, 0),
                  if Movers(b.list, ids) == [] then [Apply(out)] else []);
  }

  lemma AssignLog(b: Board, i: nat, out: int)
    requires |b.cnt| == SND_DEVICE_MAX && i < |b.list| && b.list[i].card && b.list[i].inp == NONE
    requires b.list[i].out != NONE && out != NONE && out != b.list[i].out
    ensures Assign(b, i, out, NONE).log == Enable(CheckAndRoute(Disable(b, true, b.list[i].out), i, Playback, out), true, out).log
  {
    hide Enable, Disable, CheckAndRoute;
  }

  // The events of the pass and of entry i itself, by who else is on the old device.
  lemma EventsOfSwitch(list: seq<Usecase>, i: nat, ids: set<UsecaseId>, out: int, j: nat)
    requires i < |list| && forall m :: 0 <= m < |list| ==> (list[m].id in ids <==> IsOtherPlayback(list, i, m))
    requires forall m :: 0 <= m < |list| && m != i && list[m].out == list[i].out ==> list[m].id in ids
    requires Movers(list, ids) == [] ==> forall m :: 0 <= m < |list| ==> list[m].id !in ids
    requires Movers(list, ids) != [] ==> j < |list| && list[j].id in ids && forall m :: 0 <= m < j ==> list[m].id !in ids
    ensures var s := list[i].out;
      var left := |Leavers(list, ids, Playback, s)|;
      (if left == 0 then [Reset(s)] else []) + Events(list, ids, s, out, left, 0)
        + (if Movers(list, ids) == [] then [Apply(out)] else [])
      == if ResetsFirst(list, i) then [Reset(s), Apply(out)] else [Apply(out), Reset(s)]
  {
    var s := list[i].out;
    var left := |Leavers(list, ids, Playback, s)|;
    LeaversOnly(list, ids, s);
    if Movers(list, ids) == [] {
      NobodyMoves(list, ids, s);
      NoEvents(list, ids, s, out);
    } else {
      FirstEvents(list, ids, s, out, j);
      assert IsFirstOther(list, i, j);
      OneLeaver(list, ids, s, j);
    }
  }

  lemma {:induction false} NoEvents(list: seq<Usecase>, ids: set<UsecaseId>, s: int, d: int)
    requires forall m :: 0 <= m < |list| ==> list[m].id !in ids
    ensures Events(list, ids, s, d, 0, 0) == []
  {
    if list == [] {
    } else {
      assert forall m :: 0 <= m < |list[1..]| ==> list[1..][m] == list[m + 1];
      NoEvents(list[1..], ids, s, d);
    }
  }

  lemma {:induction false} LeaversOnly(list: seq<Usecase>, ids: set<UsecaseId>, s: int)
    ensures |Leavers(list, ids, Playback, s)| == 0 <==> forall m :: 0 <= m < |list| && list[m].id in ids ==> list[m].out != s
  {
    if list == [] {
    } else {
      LeaversOnly(list[1..], ids, s);
      assert forall m :: 0 < m < |list| ==> list[m] == list[1..][m - 1];
      assert forall m :: 0 <= m < |list[1..]| ==> list[1..][m] == list[m + 1];
    }
  }

  // Entry j is the only one that leaves.
  lemma {:induction false} OneLeaver(list: seq<Usecase>, ids: set<UsecaseId>, s: int, j: nat)
    requires j < |list| && list[j].id in ids
    ensures |Leavers(list, ids, Playback, s)| == 1 && list[j].out == s
       <==> list[j].out == s && forall m :: 0 <= m < |list| && m != j && list[m].id in ids ==> list[m].out != s
    decreases j
  {
    LeaversOnly(list[1..], ids, s);
    assert forall m :: 0 < m < |list| ==> list[m] == list[1..][m - 1];
    assert forall m :: 0 <= m < |list[1..]| ==> list[1..][m] == list[m + 1];
    if j > 0 {
      OneLeaver(list[1..], ids, s, j - 1);
    }
  }

  // Both paths are live at some point of the switch.
  predicate Overlaps(log: seq<MixerEvent>, from: nat, s: int, d: int) {
    exists k :: from <= k <= |log| && s in Live(log[..k]) && d in Live(log[..k])
  }

  lemma TwoEvents(log: seq<MixerEvent>, s: int, d: int, resetsFirst: bool)
    requires s in Live(log) && d !in Live(log) && s != d
    ensures Overlaps(log + (if resetsFirst then [Reset(s), Apply(d)] else [Apply(d), Reset(s)]), |log|, s, d) <==> !resetsFirst
  {
    var first := if resetsFirst then Reset(s) else Apply(d);
    var second := if resetsFirst then Apply(d) else Reset(s);
    var all := log + (if resetsFirst then [Reset(s), Apply(d)] else [Apply(d), Reset(s)]);
    LiveAfter(log, first);
    LiveAfter(log + [first], second);
    assert all == log + [first] + [second];
    assert all[..|log|] == log && all[..|log| + 1] == log + [first] && all[..|log| + 2] == all;
    if !resetsFirst {
      assert s in Live(all[..|log| + 1]) && d in Live(all[..|log| + 1]);
    }
    hide Live;
  }

  // Main result: the comment on the shared backend says that two of its devices cannot be enabled at the same
  // time. While playback streams switch, the paths of both are live at some point exactly when the old one is
  // not reset first.
  lemma SwitchOverlapsIff(b: Board, i: nat, out: int)
    requires Sound(b) && Agrees(b) && Switches(b, i, out)
    ensures Overlaps(Assign(b, i, out, NONE).log, |b.log|, b.list[i].out, out) <==> !ResetsFirst(b.list, i)
  {
    SwitchOrder(b, i, out);
    SwitchMovers(b, i, out);
    assert b.list[i].out in Live(b.log) && out !in Live(b.log);
    hide Assign, ResetsFirst, Agrees, Sound, Overlaps;
    TwoEvents(b.log, b.list[i].out, out, ResetsFirst(b.list, i));
  }

  // Three streams on the speaker: the path of the headphones is applied before that of the speaker is reset.
  lemma ThreeStreamsOverlap(b: Board)
    requires Sound(b) && Agrees(b)
    requires b.list == [Usecase(ID_PLAYBACK, DEV_OUT_SPEAKER, NONE, true), Usecase(1, DEV_OUT_SPEAKER, NONE, true),
                        Usecase(ID_PLAYBACK_DEEP_BUFFER, DEV_OUT_SPEAKER, NONE, true)]
    ensures Overlaps(Assign(b, 0, DEV_OUT_HEADPHONES, NONE).log, |b.log|, DEV_OUT_SPEAKER, DEV_OUT_HEADPHONES)
  {
    SwitchOverlapsIff(b, 0, DEV_OUT_HEADPHONES);
    assert b.list[1].out == b.list[0].out && b.list[2].out == b.list[0].out;
  }
}
