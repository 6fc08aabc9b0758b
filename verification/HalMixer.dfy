/** The mixer paths over whole runs: exactly which steps leave a path out of step with the devices in use. */
module HalMixer {
  import opened Options
  import opened SndDevices
  import opened Board
  import opened BoardProperties
  import opened PcmProfiles
  import opened CallSession
  import opened Hal
  import opened HalProperties
  import opened HalCards
  import opened MixerPaths

  /* ---- The guard of every step ---- */

  // The device a playback stream that is selected goes to.
  function StartDevice(h: Hal, id: UsecaseId): int {
    if CallDevices(h).0 != NONE then CallDevices(h).0 else GetOutputSndDevice(Tune(h), OutDevices(h, id))
  }

  function Unlisted(list: seq<Usecase>, id: UsecaseId): seq<Usecase> {
    match FromId(list, id)
    case None => list
    case Some(i) => Without(list, i)
  }

  // Stopping a use case leaves its path applied.
  predicate StopMisses(list: seq<Usecase>, id: UsecaseId) {
    var f := FromId(list, id);
    f.Some? && MissesReset(list, f.value)
  }

  // Selecting a listed playback stream again.
  predicate SelectMisses(h: Hal, id: UsecaseId) {
    var f := FromId(h.board.list, id);
    f.Some? && StartDevice(h, id) != h.board.list[f.value].out && MissesPath(h.board.list, f.value, StartDevice(h, id))
  }

  predicate HasPlayback(list: seq<Usecase>) {
    exists j :: 0 <= j < |list| && KindOf(list[j].id) == Playback
  }

  // Starting a playback stream. One that stops again at once leaves no path of its own.
  predicate StartMisses(h: Hal, id: UsecaseId, kept: bool) {
    var list := h.board.list;
    && MissesPath(list + [Usecase(id, NONE, NONE, CardFor(h, id))], |list|, StartDevice(h, id))
    && (kept || HasPlayback(list))
  }

  function WithCall(list: seq<Usecase>): seq<Usecase> { list + [Usecase(ID_VOICE_CALL, NONE, NONE, true)] }

  // Starting a call on the devices: a call that was listed before is the one that is routed.
  predicate CallMisses(t: Tuning, list: seq<Usecase>, devices: Mask) {
    var l := WithCall(list);
    match FromId(l, ID_VOICE_CALL)
    case None => false
    case Some(v) =>
      && !(l[v].out == GetOutputSndDevice(t, devices) && l[v].inp == InCallInput(t, devices))
      && MissesPath(l, v, GetOutputSndDevice(t, devices))
  }

  // The start of a call gives the device d, which a stop left applied, a first user without the card.
  predicate CallMends(t: Tuning, list: seq<Usecase>, devices: Mask, d: int) {
    var l := WithCall(list);
    match FromId(l, ID_VOICE_CALL)
    case None => false
    case Some(v) => GetOutputSndDevice(t, devices) == d && FirstIsBare(l, v)
  }

  predicate RouteMisses(h: Hal, id: UsecaseId, devices: Mask) {
    id in h.outs && devices != {} &&
    var list := h.board.list;
    var changed := h.outs[id].devices != devices;
    if Running(h, id) && !changed then SelectMisses(h, id)
    else
      var stops := Running(h, id);
      var left := if stops then Unlisted(list, id) else list;
      var on := if h.session.inCall then Unlisted(left, ID_VOICE_CALL) else left;
      if stops && StopMisses(list, id) then
        !(StartsCall(h, id, devices) && CallMends(Tune(h), on, devices, list[FromId(list, id).value].out))
      else
        StartsCall(h, id, devices) && CallMisses(Tune(h), on, devices)
  }

  // Everything a step looks at is there before the call.
  predicate StepMisses(h: Hal, op: Op) {
    match op
    case OpOutWrite(id, ready, written, _) =>
      id in h.outs &&
      if Running(h, id) then !written && StopMisses(h.board.list, id)
      else StartMisses(h, id, written && (ready || !CardFor(h, id)))
    case OpOutStandby(id) => Running(h, id) && StopMisses(h.board.list, id)
    case OpOutSetParameters(id, devices, _) => RouteMisses(h, id, devices)
    case _ => false
  }

  ghost predicate MixerGood(h: Hal) { Invariant(h) && CardsFit(h.board.list, h) && Agrees(h.board) }

  lemma FitIsCarded(list: seq<Usecase>, h: Hal)
    requires CardsFit(list, h)
    ensures OthersCarded(list)
  {
    forall i | 0 <= i < |list| && KindOf(list[i].id) != Playback ensures list[i].card {
      assert list[i] in list;
    }
  }

  /* ---- Selecting ---- */

  predicate SameOuts(a: seq<Usecase>, b: seq<Usecase>) {
    |a| == |b| && forall i :: 0 <= i < |a| ==> a[i].id == b[i].id && a[i].card == b[i].card && a[i].out == b[i].out
  }

  lemma SameOutsMiss(a: seq<Usecase>, b: seq<Usecase>, i: nat, out: int)
    requires SameOuts(a, b) && i < |a|
    ensures MissesPath(a, i, out) <==> MissesPath(b, i, out)
  {
    assert forall d :: Vacant(a, i, d) <==> Vacant(b, i, d);
    assert forall j :: 0 <= j < |a| ==> (IsOtherPlayback(a, i, j) <==> IsOtherPlayback(b, i, j));
    assert FirstIsBare(a, i) <==> FirstIsBare(b, i);
    forall d ensures LeftByBare(a, i, d) <==> LeftByBare(b, i, d) {
      assert forall j :: 0 <= j < |a| ==> (IsLastOn(a, i, d, j) <==> IsLastOn(b, i, d, j));
    }
  }

  // Selecting the capture stream moves no output and keeps the agreement.
  lemma CaptureSelectAgrees(h: Hal, junk: InView)
    requires Sound(h.board) && OthersCarded(h.board.list) && Agrees(h.board)
    ensures var b := SelectDevices(h, ID_CAPTURE, junk);
      Sound(b) && Agrees(b) && SameOuts(b.list, h.board.list)
  {
    SelectSound(h, ID_CAPTURE, junk);
    var found := FromId(h.board.list, ID_CAPTURE);
    if found.Some? {
      var i := found.value;
      CallDevicesFit(h);
      var inp := if CallDevices(h).1 != NONE then CallDevices(h).1 else CaptureDevice(h, junk);
      assert Shaped(h.board.list[i]);
      AssignAgreesIff(h.board, i, NONE, inp);
      hide CaptureDevice, CallDevices, Agrees, Sound, FromId;
      if inp != h.board.list[i].inp {
        AssignList(h.board, i, NONE, inp);
      }
    }
  }

  // A listed playback stream goes to its start device, after the capture stream if it takes that along.
  lemma SelectPlayback(h: Hal, id: UsecaseId, junk: InView) returns (b: Board)
    requires Sound(h.board) && OthersCarded(h.board.list) && Agrees(h.board)
    requires KindOf(id) == Playback && FromId(h.board.list, id).Some?
    ensures Sound(b) && Agrees(b) && SameOuts(b.list, h.board.list)
    ensures SelectDevices(h, id, junk) == Assign(b, FromId(h.board.list, id).value, StartDevice(h, id), NONE)
    ensures StartDevice(h, id) == NONE || IsOut(StartDevice(h, id))
  {
    CaptureSelectAgrees(h, junk);
    CallDevicesFit(h);
    b := if CallDevices(h).0 == NONE && TakesCaptureAlong(h, id) then SelectDevices(h, ID_CAPTURE, junk) else h.board;
  }

  lemma SelectAgreesIff(h: Hal, id: UsecaseId, junk: InView)
    requires Sound(h.board) && OthersCarded(h.board.list) && Agrees(h.board) && KindOf(id) == Playback
    ensures Agrees(SelectDevices(h, id, junk)) <==> !SelectMisses(h, id)
    ensures FromId(h.board.list, id).Some? ==>
      SelectDevices(h, id, junk).list[FromId(h.board.list, id).value].out == StartDevice(h, id)
  {
    if FromId(h.board.list, id).Some? {
      var i := FromId(h.board.list, id).value;
      var b := SelectPlayback(h, id, junk);
      hide SelectDevices, StartDevice;
      assert Shaped(b.list[i]);
      AssignAgreesIff(b, i, StartDevice(h, id), NONE);
      AssignFrame(b, i, StartDevice(h, id), NONE, i);
      hide Agrees, Assign, Sound;
      SameOutsMiss(b.list, h.board.list, i, StartDevice(h, id));
    }
  }

  /* ---- Starting and stopping a stream ---- */

  lemma StopAgreesIff(b: Board, id: UsecaseId)
    requires Sound(b) && OthersCarded(b.list) && Agrees(b)
    ensures Agrees(StopStream(b, id)) <==> !StopMisses(b.list, id)
    ensures StopStream(b, id).list == Unlisted(b.list, id)
  {
    if FromId(b.list, id).Some? {
      DropAgreesIff(b, FromId(b.list, id).value);
      DropKeepsSound(b, FromId(b.list, id).value);
    }
  }

  // The board after a stream was listed and selected, and after it was stopped again.
  lemma StartedAgreesIff(h: Hal, id: UsecaseId, junk: InView)
    requires Sound(h.board) && OthersCarded(h.board.list) && Agrees(h.board)
    requires KindOf(id) == Playback && FromId(h.board.list, id).None?
    ensures var b := SelectDevices(h.(board := Append(h.board, id, CardFor(h, id))), id, junk);
      && (Agrees(b) <==> !StartMisses(h, id, true))
      && (Agrees(StopStream(b, id)) <==> !StartMisses(h, id, false))
  {
    var card := CardFor(h, id);
    var u := Usecase(id, NONE, NONE, card);
    var n := |h.board.list|;
    var h1 := h.(board := Append(h.board, id, card));
    AppendKeepsSound(h.board, id, card);
    FoundAfterAppend(h.board.list, u, id);
    StartDeviceAs(h, id, card);
    assert Agrees(h1.board);
    hide SelectDevices, Agrees, StartDevice, CardFor;
    SelectAgreesIff(h1, id, junk);
    StartMissesAs(h, id);
    var b := SelectPlayback(h1, id, junk);
    StoppedAgreesIff(h1.board.list, b, n, StartDevice(h, id));
    SelectSound(h1, id, junk);
    hide Assign, MissesPath, Sound, Drop;
    var s := SelectDevices(h1, id, junk);
    SameIdsFound(s.list, h1.board.list, id);
  }

  lemma StartDeviceAs(h: Hal, id: UsecaseId, card: bool)
    requires KindOf(id) == Playback
    ensures StartDevice(h.(board := Append(h.board, id, card)), id) == StartDevice(h, id)
  {
    FoundAfterAppend(h.board.list, Usecase(id, NONE, NONE, card), ID_VOICE_CALL);
  }

  lemma SameIdsFound(a: seq<Usecase>, b: seq<Usecase>, id: UsecaseId)
    requires SameIds(a, b)
    ensures FromId(a, id) == FromId(b, id)
  {
  }

  // A new entry is on no device, so it misses nothing by staying on none.
  lemma StartMissesAs(h: Hal, id: UsecaseId)
    requires KindOf(id) == Playback && FromId(h.board.list, id).None?
    ensures var h1 := h.(board := Append(h.board, id, CardFor(h, id)));
      StartDevice(h1, id) == StartDevice(h, id) ==> (StartMisses(h, id, true) <==> SelectMisses(h1, id))
  {
    FoundAfterAppend(h.board.list, Usecase(id, NONE, NONE, CardFor(h, id)), id);
  }

  lemma OthersInFront(a: seq<Usecase>, list: seq<Usecase>, n: nat)
    requires SameOuts(a, list) && |list| == n + 1
    ensures HasPlayback(list[..n]) <==> exists j :: 0 <= j < |a| && IsOtherPlayback(a, n, j)
  {
    assert forall j :: 0 <= j < n ==> list[..n][j] == list[j];
    if HasPlayback(list[..n]) {
      var j :| 0 <= j < n && KindOf(list[..n][j].id) == Playback;
      assert IsOtherPlayback(a, n, j);
    }
    if exists j :: 0 <= j < |a| && IsOtherPlayback(a, n, j) {
      var j :| 0 <= j < |a| && IsOtherPlayback(a, n, j);
      assert KindOf(list[..n][j].id) == Playback;
    }
  }

  // After the selection the other playback streams are on the device of entry n, if that is a device.
  lemma FollowedIsNotLast(b: Board, n: nat, d: int, j: nat)
    requires |b.cnt| == SND_DEVICE_MAX && UniqueStreams(b.list) && n < |b.list| && j < |b.list|
    requires b.list[n].out == NONE && (d != NONE ==> IsOtherPlayback(b.list, n, j))
    ensures !MissesReset(Assign(b, n, d, NONE).list, n)
  {
    AssignFrame(b, n, d, NONE, n);
    if d != NONE {
      AssignList(b, n, d, NONE);
      assert Assign(b, n, d, NONE).list[j].out == d;
    }
  }

  lemma StoppedAgreesIff(list: seq<Usecase>, b: Board, n: nat, d: int)
    requires Sound(b) && Agrees(b) && SameOuts(b.list, list) && OthersCarded(b.list) && |list| == n + 1
    requires KindOf(list[n].id) == Playback && list[n].out == NONE && (d == NONE || IsOut(d))
    ensures Agrees(Drop(Assign(b, n, d, NONE), n)) <==> !(MissesPath(list, n, d) && HasPlayback(list[..n]))
  {
    assert Shaped(b.list[n]);
    OthersInFront(b.list, list, n);
    SameOutsMiss(b.list, list, n, d);
    hide SameOuts;
    if d != NONE && !HasPlayback(list[..n]) {
      AloneComesAndGoes(b, n, d);
    } else {
      var a := Assign(b, n, d, NONE);
      AssignKeepsSound(b, n, d, NONE);
      AssignAgreesIff(b, n, d, NONE);
      forall j | 0 <= j < |b.list| ensures a.list[j].id == b.list[j].id && a.list[j].card == b.list[j].card {
        AssignFrame(b, n, d, NONE, j);
      }
      var j :| 0 <= j < |b.list| && (d != NONE ==> IsOtherPlayback(b.list, n, j));
      FollowedIsNotLast(b, n, d, j);
      assert OthersCarded(a.list);
      hide Assign, Drop, Agrees, Sound, FirstIsBare, LeftByBare;
      DropChangesNothing(a, n);
    }
  }

  lemma WriteBoard(h: Hal, id: UsecaseId, ready: bool, written: bool, junk: InView)
    requires |h.board.cnt| == SND_DEVICE_MAX && id in h.outs && KindOf(id) == Playback
    ensures var b := SelectDevices(h.(board := Append(h.board, id, CardFor(h, id))), id, junk);
      OutWrite(h, id, ready, written, junk).board
      == if Running(h, id) then (if written then h.board else StopStream(h.board, id))
         else if written && (ready || !CardFor(h, id)) then b
         else StopStream(b, id)
  {
    hide SelectDevices, StopStream, Served;
    assert Running(h, id) ==> h.outs[id := h.outs[id].(standby := false)] == h.outs;
  }

  lemma WriteAgreesIff(h: Hal, id: UsecaseId, ready: bool, written: bool, junk: InView)
    requires MixerGood(h)
    ensures Agrees(OutWrite(h, id, ready, written, junk).board) <==> !StepMisses(h, OpOutWrite(id, ready, written, junk))
  {
    FitIsCarded(h.board.list, h);
    if id in h.outs {
      WriteBoard(h, id, ready, written, junk);
      hide OutWrite, SelectDevices, Agrees, StopStream, StartMisses, StopMisses, CardFor;
      if Running(h, id) {
        StopAgreesIff(h.board, id);
      } else {
        assert FromId(h.board.list, id).None?;
        StartedAgreesIff(h, id, junk);
      }
    }
  }

  /* ---- Starting and stopping a call ---- */

  lemma CallAssigned(h: Hal, r: Ready, junk: InView) returns (v: nat, inp: int)
    requires Sound(h.board) && OthersCarded(h.board.list) && h.mode == InCall
    ensures var l, out := WithCall(h.board.list), GetOutputSndDevice(Tune(h), PrimaryDevices(h));
      var b := Append(h.board, ID_VOICE_CALL, true);
      && Sound(b) && b.list == l && OthersCarded(l) && FromId(l, ID_VOICE_CALL) == Some(v)
      && Fits(ID_VOICE_CALL, out, inp)
      && StartCall(h, r, junk).board == Assign(b, v, out, inp)
      && (out != NONE ==> inp == InCallInput(Tune(h), PrimaryDevices(h)))
  {
    AppendKeepsSound(h.board, ID_VOICE_CALL, true);
    var h1 := h.(board := Append(h.board, ID_VOICE_CALL, true));
    FoundAfterAppend(h.board.list, Usecase(ID_VOICE_CALL, NONE, NONE, true), ID_VOICE_CALL);
    v := FromId(WithCall(h.board.list), ID_VOICE_CALL).value;
    inp := GetInputSndDevice(Tune(h), ActiveInput(h1, junk), PrimaryDevices(h));
    hide StartVoice, Assign;
    if GetOutputSndDevice(Tune(h), PrimaryDevices(h)) != NONE {
      CallInputIs(Tune(h), ActiveInput(h1, junk), PrimaryDevices(h));
    }
  }

  lemma CardedStays(list: seq<Usecase>, i: nat)
    requires i < |list| && list[i].card
    ensures !MissesPath(list, i, NONE)
  {
  }

  lemma StartCallAgreesIff(h: Hal, r: Ready, junk: InView)
    requires Sound(h.board) && OthersCarded(h.board.list) && Agrees(h.board) && h.mode == InCall
    ensures Agrees(StartCall(h, r, junk).board) <==> !CallMisses(Tune(h), h.board.list, PrimaryDevices(h))
  {
    var v, inp := CallAssigned(h, r, junk);
    var b := Append(h.board, ID_VOICE_CALL, true);
    assert Agrees(b);
    hide StartCall, Agrees, Sound, FirstIsBare, LeftByBare;
    AssignAgreesIff(b, v, GetOutputSndDevice(Tune(h), PrimaryDevices(h)), inp);
    CardedStays(b.list, v);
  }

  // One device is applied and has no users, everything else is in step.
  ghost predicate LeftLive(b: Board, d: int) {
    && Sound(b) && OthersCarded(b.list) && IsOut(d) && At(b, d) == Spot(true, true, 0)
    && (forall e :: e != d ==> Fine(At(b, e)))
    && (forall j :: 0 <= j < |b.list| && KindOf(b.list[j].id) == Playback ==> b.list[j].out == NONE)
  }

  lemma LeftLiveIsBad(b: Board, d: int)
    requires LeftLive(b, d)
    ensures !Agrees(b)
  {
    CountsUsers(b, d);
    AgreesEach(b);
    assert !Fine(At(b, d));
  }

  lemma StartCallMends(h: Hal, r: Ready, junk: InView, d: int)
    requires LeftLive(h.board, d) && h.mode == InCall
    ensures Agrees(StartCall(h, r, junk).board) <==> CallMends(Tune(h), h.board.list, PrimaryDevices(h), d)
  {
    var v, inp := CallAssigned(h, r, junk);
    var b := Append(h.board, ID_VOICE_CALL, true);
    var out := GetOutputSndDevice(Tune(h), PrimaryDevices(h));
    var a := Assign(b, v, out, inp);
    assert forall e :: At(b, e) == At(h.board, e);
    AssignMends(b, v, out, inp, d);
    AssignKeepsSound(b, v, out, inp);
    CountsUsers(a, d);
    AgreesEach(a);
    if out == d {
      forall e | e != d ensures Fine(At(a, e)) {
        if IsOut(e) {
          NobodyOn(b, d);
          AssignFineAt(b, v, out, inp, e);
          NoBareLeaves(b.list, v, e);
        } else {
          AssignElsewhere(b, v, out, inp, e);
        }
      }
    } else {
      assert !Fine(At(a, d));
    }
  }

  lemma NobodyOn(b: Board, d: int)
    requires Sound(b) && IsOut(d) && At(b, d).users == 0
    ensures forall j :: 0 <= j < |b.list| ==> b.list[j].out != d
  {
    CountsUsers(b, d);
    UsersAre(b.list, d);
  }

  lemma NoBareLeaves(list: seq<Usecase>, i: nat, e: int)
    requires i < |list| && list[i].card && OthersCarded(list) && e != NONE
    requires forall j :: 0 <= j < |list| && KindOf(list[j].id) == Playback ==> list[j].out == NONE
    ensures !LeftByBare(list, i, e)
  {
    forall j | 0 <= j < |list| && list[j].out == e ensures list[j].card {
    }
  }

  // A call that goes to NONE, or to the device of a listed playback stream.
  lemma StartCallJoins(h: Hal, r: Ready, junk: InView, j: nat)
    requires Sound(h.board) && OthersCarded(h.board.list) && h.mode == InCall && j < |h.board.list|
    requires KindOf(h.board.list[j].id) == Playback
    requires h.board.list[j].out == GetOutputSndDevice(Tune(h), PrimaryDevices(h))
    ensures Agrees(StartCall(h, r, junk).board) <==> Agrees(h.board)
  {
    var v, inp := CallAssigned(h, r, junk);
    var b := Append(h.board, ID_VOICE_CALL, true);
    var out := GetOutputSndDevice(Tune(h), PrimaryDevices(h));
    var a := Assign(b, v, out, inp);
    AssignKeepsSound(b, v, out, inp);
    CountsUsers(a, NONE);
    CountsUsers(b, NONE);
    AgreesEach(a);
    AgreesEach(b);
    forall e ensures Fine(At(a, e)) <==> Fine(At(b, e)) {
      CallJoins(b, v, out, inp, j, e);
    }
    assert Agrees(b) <==> Agrees(h.board);
  }

  lemma DropKeepsLeftLive(b: Board, i: nat, d: int)
    requires LeftLive(b, d) && i < |b.list| && b.list[i].card && b.list[i].id == ID_VOICE_CALL
    ensures LeftLive(Drop(b, i), d)
  {
    NobodyOn(b, d);
    assert Shaped(b.list[i]);
    DropKeepsSound(b, i);
    DropSpot(b, i, d);
    forall e | e != d ensures Fine(At(Drop(b, i), e)) {
      DropFineAt(b, i, e);
    }
    hide Drop, At, Exact;
    WithoutKeepsCards(b.list, i);
  }

  lemma WithoutKeepsCards(list: seq<Usecase>, i: nat)
    requires i < |list| && OthersCarded(list)
    ensures OthersCarded(Without(list, i)) && forall u :: u in Without(list, i) ==> u in list
  {
  }

  lemma StopCallChangesNothing(b: Board)
    requires Sound(b) && OthersCarded(b.list)
    ensures var s := StopStream(b, ID_VOICE_CALL);
      && Sound(s) && OthersCarded(s.list) && s.list == Unlisted(b.list, ID_VOICE_CALL)
      && (Agrees(s) <==> Agrees(b)) && forall d :: LeftLive(b, d) ==> LeftLive(s, d)
  {
    var found := FromId(b.list, ID_VOICE_CALL);
    if found.Some? {
      DropKeepsSound(b, found.value);
      DropChangesNothing(b, found.value);
      WithoutKeepsCards(b.list, found.value);
      hide Drop, Sound, Agrees, LeftLive;
      forall d | LeftLive(b, d) ensures LeftLive(StopStream(b, ID_VOICE_CALL), d) {
        DropKeepsLeftLive(b, found.value, d);
      }
    }
  }

  lemma UpdateCallAgreesIff(h: Hal, id: UsecaseId, changed: bool, luck: Luck, d: int)
    requires Sound(h.board) && OthersCarded(h.board.list)
    ensures var on := if h.session.inCall then Unlisted(h.board.list, ID_VOICE_CALL) else h.board.list;
      var after := UpdateCall(h, id, changed, luck).board;
      var starts := StartsAgain(h, id, changed);
      && (Agrees(h.board) ==>
            (Agrees(after) <==> !(starts && CallMisses(Tune(h), on, PrimaryDevices(h)))))
      && (LeftLive(h.board, d) ==>
            (Agrees(after) <==> starts && CallMends(Tune(h), on, PrimaryDevices(h), d)))
  {
    StopCallChangesNothing(h.board);
    hide Agrees, LeftLive, CallMisses, CallMends, StopStream, StopVoice, StartCall, Sound;
    var s := if h.session.inCall then StopCall(h) else h;
    if StartsAgain(h, id, changed) {
      assert UpdateCall(h, id, changed, luck) == StartCall(s, luck.call, luck.junk2);
      if Agrees(h.board) {
        StartCallAgreesIff(s, luck.call, luck.junk2);
      }
      if LeftLive(h.board, d) {
        StartCallMends(s, luck.call, luck.junk2, d);
      }
    } else if LeftLive(h.board, d) {
      LeftLiveIsBad(h.board, d);
    }
  }

  /* ---- out_set_parameters ---- */

  lemma StopLeavesLive(b: Board, id: UsecaseId)
    requires Sound(b) && OthersCarded(b.list) && Agrees(b) && KindOf(id) == Playback && StopMisses(b.list, id)
    ensures LeftLive(StopStream(b, id), b.list[FromId(b.list, id).value].out)
  {
    var i := FromId(b.list, id).value;
    var d := b.list[i].out;
    assert Shaped(b.list[i]);
    var s := StopStream(b, id);
    DropKeepsSound(b, i);
    CountsUsers(b, NONE);
    AgreesEach(b);
    DropFineAt(b, i, d);
    forall e | e != d ensures Fine(At(s, e)) {
      DropFineAt(b, i, e);
    }
    assert forall j :: 0 <= j < |s.list| ==> s.list[j] == b.list[if j < i then j else j + 1];
    hide Drop, At, Exact, Agrees;
    SharedAndVacant(b.list, i);
    assert OthersCarded(s.list);
  }

  lemma SharedAndVacant(list: seq<Usecase>, i: nat)
    requires i < |list| && SharedBackend(list) && KindOf(list[i].id) == Playback && list[i].out != NONE
    requires Vacant(list, i, list[i].out)
    ensures forall j :: 0 <= j < |list| && j != i && KindOf(list[j].id) == Playback ==> list[j].out == NONE
  {
    forall j | 0 <= j < |list| && j != i && KindOf(list[j].id) == Playback
      ensures list[j].out == NONE || list[j].out == list[i].out
    {
    }
  }

  // The state in which out_set_parameters looks at the call.
  function Rerouted(h: Hal, id: UsecaseId, devices: Mask, luck: Luck): (r: Hal)
    requires |h.board.cnt| == SND_DEVICE_MAX && id in h.outs
    ensures |r.board.cnt| == SND_DEVICE_MAX
  {
    var h1 := h.(outs := h.outs[id := h.outs[id].(devices := devices)]);
    var h2 := Reroute(h1, id, h.outs[id].devices != devices, luck.junk1);
    h2.(session := SetScoLeg(h2, devices, luck))
  }

  lemma ReroutedIs(h: Hal, id: UsecaseId, devices: Mask, luck: Luck)
    requires MixerGood(h) && id in h.outs
    ensures var g := Rerouted(h, id, devices, luck);
      && Sound(g.board) && OthersCarded(g.board.list)
      && Tune(g) == Tune(h) && g.primary == h.primary && g.session.inCall == h.session.inCall
      && (h.primary == Some(id) ==> PrimaryDevices(g) == devices)
  {
    var h1 := h.(outs := h.outs[id := h.outs[id].(devices := devices)]);
    RerouteFits(h, id, devices, luck.junk1);
    var h2 := Reroute(h1, id, h.outs[id].devices != devices, luck.junk1);
    hide SelectDevices, StopStream, SetScoLeg, CardsFit;
    FitIsCarded(h2.board.list, h2);
    SetScoLegMatched(h2, devices, luck);
    hide Sound, Matched, StandbyMatches;
  }

  lemma ReroutedBoard(h: Hal, id: UsecaseId, devices: Mask, luck: Luck)
    requires |h.board.cnt| == SND_DEVICE_MAX && id in h.outs
    ensures Rerouted(h, id, devices, luck).board
         == if !Running(h, id) then h.board
            else if h.outs[id].devices != devices then StopStream(h.board, id)
            else SelectDevices(h, id, luck.junk1)
  {
    hide SelectDevices, StopStream, SetScoLeg;
    assert h.outs[id].devices == devices ==> h.outs[id := h.outs[id].(devices := devices)] == h.outs;
  }

  lemma RouteUnfolds(h: Hal, id: UsecaseId, devices: Mask, luck: Luck)
    requires |h.board.cnt| == SND_DEVICE_MAX && id in h.outs && devices != {}
    ensures OutSetParameters(h, id, devices, luck)
         == UpdateCall(Rerouted(h, id, devices, luck), id, h.outs[id].devices != devices, luck)
  {
    hide UpdateCall, Reroute, SetScoLeg;
  }

  // A running stream that keeps its devices: a call that starts joins it.
  lemma ReselectAgreesIff(h: Hal, id: UsecaseId, luck: Luck)
    requires MixerGood(h) && Running(h, id) && h.outs[id].devices != {}
    ensures Agrees(OutSetParameters(h, id, h.outs[id].devices, luck).board) <==> !SelectMisses(h, id)
  {
    var devices := h.outs[id].devices;
    var g := Rerouted(h, id, devices, luck);
    FitIsCarded(h.board.list, h);
    ReroutedIs(h, id, devices, luck);
    ReroutedBoard(h, id, devices, luck);
    RouteUnfolds(h, id, devices, luck);
    SelectAgreesIff(h, id, luck.junk1);
    assert FromId(h.board.list, id).Some?;
    var i := FromId(h.board.list, id).value;
    SelectSound(h, id, luck.junk1);
    hide SelectDevices, Agrees, Sound, SelectMisses, OutSetParameters, Rerouted, StartCall, StopCall;
    if StartsAgain(g, id, false) {
      assert StartDevice(h, id) == GetOutputSndDevice(Tune(h), devices);
      StartCallJoins(g, luck.call, luck.junk2, i);
    }
  }

  lemma RouteAgreesIff(h: Hal, id: UsecaseId, devices: Mask, luck: Luck)
    requires MixerGood(h)
    ensures Agrees(OutSetParameters(h, id, devices, luck).board) <==> !RouteMisses(h, id, devices)
  {
    if id in h.outs && devices != {} {
      var changed := h.outs[id].devices != devices;
      if Running(h, id) && !changed {
        ReselectAgreesIff(h, id, luck);
      } else {
        FitIsCarded(h.board.list, h);
        var g := Rerouted(h, id, devices, luck);
        ReroutedIs(h, id, devices, luck);
        ReroutedBoard(h, id, devices, luck);
        RouteUnfolds(h, id, devices, luck);
        StopAgreesIff(h.board, id);
        var d := if StopMisses(h.board.list, id) then h.board.list[FromId(h.board.list, id).value].out else NONE;
        if Running(h, id) && StopMisses(h.board.list, id) {
          StopLeavesLive(h.board, id);
        }
        UpdateCallAgreesIff(g, id, changed, luck, d);
        hide SelectDevices, Agrees, Sound, OutSetParameters, Rerouted, UpdateCall, StopMisses, CallMisses, CallMends, LeftLive;
        assert StartsAgain(g, id, changed) <==> StartsCall(h, id, devices);
      }
    }
  }

  /* ---- Every step ---- */

  lemma InReadAgrees(h: Hal, ready: bool, got: bool, junk: InView)
    requires MixerGood(h)
    ensures Agrees(InRead(h, ready, got, junk).board)
  {
    FitIsCarded(h.board.list, h);
    if h.capture.standby && Served(Capture, h.capture.devices) {
      var h1 := h.(board := Append(h.board, ID_CAPTURE, true));
      AppendKeepsSound(h.board, ID_CAPTURE, true);
      assert Agrees(h1.board);
      CaptureSelectAgrees(h1, junk);
      var b := SelectDevices(h1, ID_CAPTURE, junk);
      SelectSound(h1, ID_CAPTURE, junk);
      CaptureStops(b);
      hide SelectDevices, Agrees, StopStream, Sound;
    } else {
      CaptureStops(h.board);
      hide SelectDevices, Agrees, StopStream, Sound;
    }
  }

  lemma CaptureStops(b: Board)
    requires Sound(b) && OthersCarded(b.list) && Agrees(b)
    ensures Agrees(StopStream(b, ID_CAPTURE))
  {
    StopAgreesIff(b, ID_CAPTURE);
  }

  // in_set_parameters leaves the board, stops the capture stream or selects it.
  lemma InSetParametersBoard(h: Hal, source: Option<Source>, devices: Option<Mask>, junk: InView) returns (g: Hal)
    requires |h.board.cnt| == SND_DEVICE_MAX
    ensures g == h.(capture := g.capture)
    ensures var b := InSetParameters(h, source, devices, junk).board;
      b == h.board || b == StopStream(h.board, ID_CAPTURE) || b == SelectDevices(g, ID_CAPTURE, junk)
  {
    hide SelectDevices, StopStream, CaptureProfileShares;
    g :=
      if source.Some? && source.value != SourceDefault
      then h.(capture := h.capture.(source := source.value)) else h;
    if devices.Some? {
      g := g.(capture := g.capture.(devices := devices.value));
    }
  }

  lemma InSetParametersAgrees(h: Hal, source: Option<Source>, devices: Option<Mask>, junk: InView)
    requires MixerGood(h)
    ensures Agrees(InSetParameters(h, source, devices, junk).board)
  {
    FitIsCarded(h.board.list, h);
    var g := InSetParametersBoard(h, source, devices, junk);
    hide InSetParameters, SelectDevices, StopStream, Agrees;
    CaptureStops(h.board);
    CaptureSelectAgrees(g, junk);
  }

  // Main result: a step keeps paths and devices in use in step exactly when it misses none, whatever cards
  // the listed use cases have.
  lemma StepAgreesIff(h: Hal, op: Op)
    requires MixerGood(h)
    ensures Agrees(Step(h, op).board) <==> !StepMisses(h, op)
  {
    FitIsCarded(h.board.list, h);
    match op {
      case OpOutWrite(id, ready, written, junk) => WriteAgreesIff(h, id, ready, written, junk);
      case OpOutStandby(id) => StopAgreesIff(h.board, id);
      case OpOutSetParameters(id, devices, luck) => RouteAgreesIff(h, id, devices, luck);
      case OpInRead(ready, got, junk) => InReadAgrees(h, ready, got, junk);
      case OpInStandby => CaptureStops(h.board);
      case OpInSetParameters(source, devices, junk) => InSetParametersAgrees(h, source, devices, junk);
      case OpSetMode(mode) => StopCallChangesNothing(h.board);
      case OpSetBand(wideband, btWideband) =>
    }
  }

  /* ---- Every run ---- */

  // Paths and counts agree at every boundary of the run.
  ghost predicate AgreesThroughout(h: Hal, ops: seq<Op>)
    requires |h.board.cnt| == SND_DEVICE_MAX
    decreases |ops|
  {
    Agrees(h.board) && (ops == [] || AgreesThroughout(Step(h, ops[0]), ops[1..]))
  }

  predicate NothingMissed(h: Hal, ops: seq<Op>)
    requires |h.board.cnt| == SND_DEVICE_MAX
    decreases |ops|
  {
    ops == [] || (!StepMisses(h, ops[0]) && NothingMissed(Step(h, ops[0]), ops[1..]))
  }

  lemma {:induction false} RunAgreesIffFrom(h: Hal, ops: seq<Op>)
    requires MixerGood(h)
    ensures AgreesThroughout(h, ops) <==> NothingMissed(h, ops)
    decreases |ops|
  {
    if ops == [] {
    } else {
      StepAgreesIff(h, ops[0]);
      StepInvariant(h, ops[0]);
      StepFits(h, ops[0]);
      if Agrees(Step(h, ops[0]).board) {
        RunAgreesIffFrom(Step(h, ops[0]), ops[1..]);
      }
    }
  }

  lemma FreshIsGood(h: Hal)
    requires Fresh(h)
    ensures MixerGood(h)
  {
    FreshInvariant(h);
  }

  // Main result: paths and counts agree at every boundary of a run exactly when none of its steps misses.
  lemma RunAgreesIff(h: Hal, ops: seq<Op>)
    requires Fresh(h)
    ensures AgreesThroughout(h, ops) <==> NothingMissed(h, ops)
  {
    FreshIsGood(h);
    RunAgreesIffFrom(h, ops);
  }

  // Every listed use case has the mixer card at every boundary of the run.
  ghost predicate CardsThroughout(h: Hal, ops: seq<Op>)
    requires |h.board.cnt| == SND_DEVICE_MAX
    decreases |ops|
  {
    AllCards(h.board.list) && (ops == [] || CardsThroughout(Step(h, ops[0]), ops[1..]))
  }

  lemma CardedMissesNothing(list: seq<Usecase>, i: nat, out: int)
    requires i < |list| && AllCards(list)
    ensures !MissesPath(list, i, out) && !MissesReset(list, i)
  {
  }

  lemma CardedUnlisted(list: seq<Usecase>, id: UsecaseId)
    requires AllCards(list)
    ensures AllCards(Unlisted(list, id)) && AllCards(WithCall(list)) && !StopMisses(list, id)
  {
  }

  lemma CardedCall(t: Tuning, list: seq<Usecase>, devices: Mask)
    requires AllCards(list)
    ensures !CallMisses(t, list, devices)
  {
    CardedUnlisted(list, ID_VOICE_CALL);
    var l := WithCall(list);
    if FromId(l, ID_VOICE_CALL).Some? {
      CardedMissesNothing(l, FromId(l, ID_VOICE_CALL).value, GetOutputSndDevice(t, devices));
    }
  }

  lemma CardedRoute(h: Hal, id: UsecaseId, devices: Mask)
    requires AllCards(h.board.list)
    ensures !RouteMisses(h, id, devices)
  {
    hide CallMisses, CallMends, StopMisses, MissesPath;
    var list := h.board.list;
    if FromId(list, id).Some? {
      CardedMissesNothing(list, FromId(list, id).value, StartDevice(h, id));
    }
    var left := if Running(h, id) then Unlisted(list, id) else list;
    CardedUnlisted(list, id);
    CardedUnlisted(left, ID_VOICE_CALL);
    CardedCall(Tune(h), if h.session.inCall then Unlisted(left, ID_VOICE_CALL) else left, devices);
  }

  // A start of a stream that is gone again misses nothing of the others, who have the card.
  lemma CardedStart(h: Hal, id: UsecaseId)
    requires AllCards(h.board.list)
    ensures !StartMisses(h, id, false) && (CardFor(h, id) ==> !StartMisses(h, id, true))
  {
    var list := h.board.list;
    var l := list + [Usecase(id, NONE, NONE, CardFor(h, id))];
    assert forall j :: 0 <= j < |list| ==> l[j] == list[j];
    if HasPlayback(list) {
      var j :| 0 <= j < |list| && KindOf(list[j].id) == Playback;
      assert IsOtherPlayback(l, |list|, j);
      assert !FirstIsBare(l, |list|);
      assert forall d :: NONE < d < IN_BEGIN ==> !LeftByBare(l, |list|, d);
    }
    if CardFor(h, id) {
      assert AllCards(l);
    }
  }

  // A start of a stream that stays leaves its entry without the card when its devices are not served.
  lemma KeptStartShows(h: Hal, id: UsecaseId, ready: bool, junk: InView)
    requires MixerGood(h) && id in h.outs && !Running(h, id) && !CardFor(h, id)
    ensures !AllCards(OutWrite(h, id, ready, true, junk).board.list)
  {
    assert FromId(h.board.list, id).None?;
    WriteBoard(h, id, ready, true, junk);
    var h1 := h.(board := Append(h.board, id, false));
    AppendKeepsSound(h.board, id, false);
    SelectCards(h1, id, junk);
    var b := SelectDevices(h1, id, junk);
    hide SelectDevices, OutWrite;
    assert !h1.board.list[|h.board.list|].card;
    assert !b.list[|h.board.list|].card;
  }

  lemma CardedStepMissesNothing(h: Hal, op: Op)
    requires MixerGood(h) && AllCards(h.board.list) && AllCards(Step(h, op).board.list)
    ensures !StepMisses(h, op)
  {
    hide StopMisses, StartMisses, RouteMisses, CardFor;
    match op {
      case OpOutWrite(id, ready, written, junk) =>
        CardedUnlisted(h.board.list, id);
        CardedStart(h, id);
        if id in h.outs && !Running(h, id) && !CardFor(h, id) && written {
          KeptStartShows(h, id, ready, junk);
        }
      case OpOutStandby(id) => CardedUnlisted(h.board.list, id);
      case OpOutSetParameters(id, devices, _) => CardedRoute(h, id, devices);
      case _ =>
    }
  }

  lemma {:induction false} CardedRunAgrees(h: Hal, ops: seq<Op>)
    requires MixerGood(h) && CardsThroughout(h, ops)
    ensures Invariant(Run(h, ops)) && Agrees(Run(h, ops).board)
    decreases |ops|
  {
    if ops == [] {
    } else {
      CardedStepMissesNothing(h, ops[0]);
      StepAgreesIff(h, ops[0]);
      StepInvariant(h, ops[0]);
      StepFits(h, ops[0]);
      CardedRunAgrees(Step(h, ops[0]), ops[1..]);
    }
  }

  // Main result: after any run in which every listed use case has the mixer card at every boundary, the
  // path of a device is applied exactly when a listed use case is on the device; and along the way a path
  // was applied only when it was not, and reset only when it was.
  lemma PathsShowUse(h: Hal, ops: seq<Op>, d: int)
    requires Fresh(h) && CardsThroughout(h, ops)
    ensures var b := Run(h, ops).board;
      (d in Live(b.log) <==> NONE < d < SND_DEVICE_MAX && Users(b.list, d) > 0) && Paired(b.log)
  {
    FreshIsGood(h);
    CardedRunAgrees(h, ops);
  }
}
