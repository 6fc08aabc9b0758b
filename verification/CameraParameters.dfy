/** The class CameraParameters of camera/CameraParameters.cpp, updated in place, and the promises of its
    setters and getters. */
module CameraParameters {
  import opened Options
  import opened CStrings
  import opened Numerals
  import opened SizeList
  import opened ParamMap

  const KEY_PREVIEW_SIZE := "preview-size"
  const KEY_PICTURE_SIZE := "picture-size"
  const KEY_VIDEO_SIZE := "video-size"

  /* ---- The operations on the vector ---- */

  predicate Plain(s: string) { '=' !in s && ';' !in s }

  // set: a NULL argument, or one with '=' or ';' in it, changes nothing.
  function Set(m: seq<Entry>, key: Option<string>, value: Option<string>): seq<Entry> {
    if key.None? || value.None? || !Plain(key.value) || !Plain(value.value) then m
    else Add(m, key.value, value.value)
  }

  function SetInt(m: seq<Entry>, key: string, n: Int32): seq<Entry> { Set(m, Some(key), Some(Print(n))) }

  function SetSize(m: seq<Entry>, key: string, size: Size): seq<Entry> {
    Set(m, Some(key), Some(PrintPair(size, 'x')))
  }

  // get: NULL for a key that is missing or has the empty value.
  function Get(m: seq<Entry>, key: string): Option<string> {
    var v := ValueFor(m, key);
    if v == "" then None else Some(v)
  }

  function GetInt(m: seq<Entry>, key: string, l: Long): Int32 {
    var v := Get(m, key);
    if v.None? then -1 else ToInt(Strtol(v.value, 0, 0, l).0)
  }

  function GetSize(m: seq<Entry>, key: string, l: Long): Size {
    var p := Get(m, key);
    if p.None? then (-1, -1)
    else
      var pair := ParsePair(p.value, 0, 'x', l);
      if pair.None? then (-1, -1) else (pair.value.0, pair.value.1)
  }

  function GetSizes(m: seq<Entry>, key: string, l: Long): seq<Size> {
    var p := Get(m, key);
    if p.None? then [] else ParseSizes(p.value, 0, l)
  }

  /* ---- Reachable maps ---- */

  datatype Op =
    | OpSet(key: Option<string>, value: Option<string>)
    | OpRemove(removed: string)
    | OpUnflatten(text: string)

  function Step(m: seq<Entry>, op: Op): seq<Entry> {
    match op
    case OpSet(key, value) => Set(m, key, value)
    case OpRemove(key) => RemoveItem(m, key)
    case OpUnflatten(text) => Unflatten(text)
  }

  function Run(m: seq<Entry>, ops: seq<Op>): seq<Entry>
    decreases |ops|
  {
    if ops == [] then m else Run(Step(m, ops[0]), ops[1..])
  }

  lemma StepIsWellFormed(m: seq<Entry>, op: Op)
    requires WellFormed(m)
    ensures WellFormed(Step(m, op))
  {
    match op {
      case OpSet(key, value) =>
        if key.Some? && value.Some? {
          AddKeeps(m, key.value, value.value);
        }
      case OpRemove(key) => RemoveKeeps(m, key);
      case OpUnflatten(text) => UnflattenIsWellFormed(text);
    }
  }

  // Main result: every map that set, remove and unflatten can make is given back by flattening and
  // unflattening it.
  lemma {:induction false} ReachableRoundTrip(m: seq<Entry>, ops: seq<Op>)
    requires WellFormed(m)
    ensures WellFormed(Run(m, ops))
    ensures Unflatten(Flatten(Run(m, ops))) == Run(m, ops)
    decreases |ops|
  {
    if ops == [] {
      RoundTrip(m);
    } else {
      StepIsWellFormed(m, ops[0]);
      ReachableRoundTrip(Step(m, ops[0]), ops[1..]);
    }
  }

  /* ---- Setters and getters ---- */

  lemma SetThenGet(m: seq<Entry>, key: string, value: string, other: string)
    requires Sorted(m) && Plain(key) && Plain(value)
    ensures var n := Set(m, Some(key), Some(value));
      && Sorted(n)
      && Get(n, key) == (if value == "" then None else Some(value))
      && (other != key ==> Get(n, other) == Get(m, other))
  {
    AddKeeps(m, key, value);
    var n := Add(m, key, value);
    ValueForIsLookup(n, key);
    ValueForIsLookup(n, other);
    ValueForIsLookup(m, other);
  }

  // What set means: it binds the key to the value when both are there and have neither '=' nor ';', and
  // otherwise leaves every binding.
  lemma SetMeans(m: seq<Entry>, key: Option<string>, value: Option<string>)
    requires Sorted(m)
    ensures var legal := key.Some? && value.Some?
                         && (forall c :: c in key.value + value.value ==> c != '=' && c != ';');
      AsMap(Set(m, key, value)) == if legal then AsMap(m)[key.value := value.value] else AsMap(m)
  {
    if key.Some? && value.Some? {
      var both := key.value + value.value;
      assert forall c :: c in both <==> c in key.value || c in value.value;
      AddKeeps(m, key.value, value.value);
    }
  }

  // A key that is missing or bound to the empty text has no value, and its getters say so.
  lemma MissingReadsAsNothing(m: seq<Entry>, key: string, l: Long)
    requires key in AsMap(m) ==> AsMap(m)[key] == ""
    ensures Get(m, key).None? && GetInt(m, key, l) == -1 && GetSize(m, key, l) == (-1, -1) && GetSizes(m, key, l) == []
  {
    ValueForIsLookup(m, key);
  }

  // So has a key that was removed, and no other key changes.
  lemma RemovedReadsAsNothing(m: seq<Entry>, key: string, l: Long, other: string)
    requires Sorted(m)
    ensures Get(RemoveItem(m, key), key).None? && GetInt(RemoveItem(m, key), key, l) == -1
    ensures other != key ==> Get(RemoveItem(m, key), other) == Get(m, other)
  {
    RemoveKeeps(m, key);
    MissingReadsAsNothing(RemoveItem(m, key), key, l);
    ValueForIsLookup(RemoveItem(m, key), other);
    ValueForIsLookup(m, other);
  }

  // A text without an 'x' is no size.
  lemma SizeNeedsAnX(m: seq<Entry>, key: string, l: Long)
    requires key in AsMap(m) ==> 'x' !in AsMap(m)[key]
    ensures GetSize(m, key, l) == (-1, -1)
  {
    ValueForIsLookup(m, key);
    hide Strtol;
  }

  // Main result: getInt reads decimal, hexadecimal and octal texts, with blanks and a sign, cut to an int.
  lemma IntTextReads(m: seq<Entry>, key: string, blanks: string, sign: string, body: string, base: nat, digits: string, l: Long)
    requires AllSpace(blanks) && IsSign(sign) && IsBody(body, base, digits)
    requires key in AsMap(m) && AsMap(m)[key] == blanks + sign + body
    ensures var value := ValueOf(digits, base, 0);
      GetInt(m, key, l) == ToInt(Clamp(if sign == "-" then -(value as int) else value, l))
  {
    ValueForIsLookup(m, key);
    BodyFacts(body, base, digits);
    StrtolBaseZero(blanks, sign, body, base, digits, l);
    hide Strtol, ToInt, Clamp, ValueOf;
  }

  lemma PrintIsPlain(n: Int32)
    ensures Plain(Print(n)) && Print(n) != ""
  {
    var d := PrintNat(if n < 0 then -(n as int) else n);
    assert forall c :: c in d ==> IsDecimal(c);
  }

  // Main result: an int that is set under a key is read back, in spite of base 0, exactly when the key is
  // plain or had that value; no other key changes.
  lemma IntRoundTrip(m: seq<Entry>, key: string, n: Int32, l: Long, other: string)
    requires Sorted(m)
    ensures GetInt(SetInt(m, key, n), key, l) == n <==> Plain(key) || GetInt(m, key, l) == n
    ensures other != key ==> Get(SetInt(m, key, n), other) == Get(m, other)
  {
    PrintIsPlain(n);
    if Plain(key) {
      SetThenGet(m, key, Print(n), other);
      var p := Print(n);
      hide Print, Strtol;
      assert p[0..|p|] == p;
      StrtolReadsPrint(p, 0, n, 0, l);
      ToIntOfInt(n);
    }
  }

  // Main result: a size that is set is read back, whatever the two ints are, "0x10" included.
  lemma SizeRoundTrip(m: seq<Entry>, key: string, size: Size, l: Long, other: string)
    requires Sorted(m) && Plain(key)
    ensures GetSize(SetSize(m, key, size), key, l) == size
    ensures other != key ==> Get(SetSize(m, key, size), other) == Get(m, other)
  {
    PrintIsPlain(size.0);
    PrintIsPlain(size.1);
    hide Print, ParsePair;
    var p := PrintPair(size, 'x');
    SetThenGet(m, key, p, other);
    assert p[0..|p|] == p;
    ParsePrintedPair(p, 0, size, 'x', l);
  }

  lemma {:induction false} PrintSizesIsPlain(sizes: seq<Size>)
    ensures Plain(PrintSizes(sizes))
  {
    hide Print;
    if sizes == [] {
    } else {
      PrintIsPlain(sizes[0].0);
      PrintIsPlain(sizes[0].1);
      PrintSizesIsPlain(sizes[1..]);
    }
  }

  // Main result: a list of sizes that is set as text is read back, the empty list included.
  lemma SizesSetRoundTrip(m: seq<Entry>, key: string, sizes: seq<Size>, l: Long)
    requires Sorted(m) && Plain(key)
    ensures GetSizes(Set(m, Some(key), Some(PrintSizes(sizes))), key, l) == sizes
  {
    PrintSizesIsPlain(sizes);
    hide ParseSizes;
    var p := PrintSizes(sizes);
    SetThenGet(m, key, p, key);
    assert p[0..] == p;
    SizesRoundTrip(p, 0, sizes, l);
    EmptyTextHasNoSizes(l);
  }

  lemma EmptyTextHasNoSizes(l: Long)
    ensures ParseSizes("", 0, l) == []
  {
    NoPairAtEnd("", l);
  }

  // The three size settings do not disturb one another: what each setter wrote, its getter reads.
  lemma SizeSettersAreIndependent(m: seq<Entry>, preview: Size, picture: Size, video: Size, l: Long)
    requires Sorted(m)
    ensures var n := SetSize(SetSize(SetSize(m, KEY_PREVIEW_SIZE, preview), KEY_PICTURE_SIZE, picture), KEY_VIDEO_SIZE, video);
      && GetSize(n, KEY_PREVIEW_SIZE, l) == preview
      && GetSize(n, KEY_PICTURE_SIZE, l) == picture
      && GetSize(n, KEY_VIDEO_SIZE, l) == video
  {
    hide SetSize, Get, ParsePair;
    var m1 := SetSize(m, KEY_PREVIEW_SIZE, preview);
    var m2 := SetSize(m1, KEY_PICTURE_SIZE, picture);
    SetSizeSorted(m, KEY_PREVIEW_SIZE, preview);
    SetSizeSorted(m1, KEY_PICTURE_SIZE, picture);
    SizeRoundTrip(m, KEY_PREVIEW_SIZE, preview, l, "");
    SizeRoundTrip(m1, KEY_PICTURE_SIZE, picture, l, KEY_PREVIEW_SIZE);
    SizeRoundTrip(m2, KEY_VIDEO_SIZE, video, l, KEY_PREVIEW_SIZE);
    SizeRoundTrip(m2, KEY_VIDEO_SIZE, video, l, KEY_PICTURE_SIZE);
  }

  lemma SetSizeSorted(m: seq<Entry>, key: string, size: Size)
    requires Sorted(m)
    ensures Sorted(SetSize(m, key, size))
  {
    AddKeeps(m, key, PrintPair(size, 'x'));
  }

  /* ---- The class ---- */

  class CameraParameters {
    var mMap: seq<Entry>

    constructor ()
      ensures mMap == []
    {
      mMap := [];
    }

    method FlattenMap() returns (flattened: string)
      ensures flattened == Flatten(mMap)
    {
      flattened := "";
      var size := |mMap|;
      for i := 0 to size
        invariant flattened + Flatten(mMap[i..]) == Flatten(mMap)
      {
        ghost var before, rest := flattened, mMap[i..];
        var k, v := mMap[i].key, mMap[i].value;
        flattened := flattened + k;
        flattened := flattened + "=";
        flattened := flattened + v;
        if i != size - 1 {
          flattened := flattened + ";";
        }
        assert rest[1..] == mMap[i + 1..];
        assert before + Flatten(rest) == flattened + Flatten(mMap[i + 1..]);
      }
    }

    method UnflattenText(params: string)
      modifies this
      ensures mMap == Unflatten(params)
    {
      hide Pairs, AddAll, Find, Add;
      mMap := [];
      var a := 0;
      while true
        invariant a <= |params| && AddAll(mMap, Pairs(params, a)) == Unflatten(params)
        decreases |params| - a
      {
        var b := Find(params, '=', a);
        if b == |params| {
          PairsEnd(params, a);
          AddAllNone(mMap);
          break;
        }
        var k := params[a..b];
        var e := Find(params, ';', b + 1);
        var v := params[b + 1..e];
        PairsStep(params, a, b, e);
        AddAllFirst(mMap, Entry(k, v), if e == |params| then [] else Pairs(params, e + 1));
        mMap := Add(mMap, k, v);
        if e == |params| {
          AddAllNone(mMap);
          break;
        }
        a := e + 1;
      }
    }

    method SetText(key: Option<string>, value: Option<string>)
      modifies this
      ensures mMap == Set(old(mMap), key, value)
    {
      if key.None? || value.None? {
        return;
      }
      if '=' in key.value || ';' in key.value {
        return;
      }
      if '=' in value.value || ';' in value.value {
        return;
      }
      mMap := Add(mMap, key.value, value.value);
    }

    method SetNumber(key: string, n: Int32)
      modifies this
      ensures mMap == SetInt(old(mMap), key, n)
    {
      SetText(Some(key), Some(Print(n)));
    }

    // setPreviewSize, setVideoSize and setPictureSize differ in the key alone.
    method SetDimensions(key: string, width: Int32, height: Int32)
      modifies this
      ensures mMap == SetSize(old(mMap), key, (width, height))
    {
      SetText(Some(key), Some(Print(width) + "x" + Print(height)));
    }

    method GetText(key: string) returns (v: Option<string>)
      ensures v == Get(mMap, key)
    {
      var value := "";
      var i := 0;
      while i < |mMap| && mMap[i].key != key
        invariant 0 <= i <= |mMap| && ValueFor(mMap, key) == ValueFor(mMap[i..], key)
      {
        i := i + 1;
      }
      if i < |mMap| {
        value := mMap[i].value;
      }
      v := if |value| == 0 then None else Some(value);
    }

    method GetNumber(key: string, l: Long) returns (n: Int32)
      ensures n == GetInt(mMap, key, l)
    {
      var v := GetText(key);
      if v.None? {
        return -1;
      }
      n := ToInt(Strtol(v.value, 0, 0, l).0);
    }

    method GetDimensions(key: string, l: Long) returns (width: Int32, height: Int32)
      ensures (width, height) == GetSize(mMap, key, l)
    {
      width, height := -1, -1;
      var p := GetText(key);
      if p.None? {
        return;
      }
      var pair := ParsePair(p.value, 0, 'x', l);
      if pair.Some? {
        width, height := pair.value.0, pair.value.1;
      }
    }

    method GetSupportedSizes(key: string, l: Long) returns (sizes: seq<Size>)
      ensures sizes == GetSizes(mMap, key, l)
    {
      var text := GetText(key);
      sizes := ParseSizesList(text, l);
    }

    method Remove(key: string)
      modifies this
      ensures mMap == RemoveItem(old(mMap), key)
    {
      mMap := RemoveItem(mMap, key);
    }
  }

  // camera2_fixup_getparams, and camera2_fixup_setparams but for the copy it keeps.
  method FixupParameters(settings: string) returns (fixed: string)
    ensures fixed == Fixup(settings)
    ensures Unflatten(fixed) == Unflatten(settings)
    ensures Fixup(fixed) == fixed
  {
    var params := new CameraParameters();
    params.UnflattenText(settings);
    fixed := params.FlattenMap();
    FixupKeepsMeaning(settings);
  }
}
