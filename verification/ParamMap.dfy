/** The map of camera/CameraParameters.cpp, a vector of entries kept in the order of strcmp, and its text
    form: flatten and unflatten. */
module ParamMap {
  import opened CStrings

  datatype Entry = Entry(key: string, value: string)

  /* ---- The order of strcmp ---- */

  predicate Less(a: string, b: string) {
    b != "" && (a == "" || a[0] < b[0] || (a[0] == b[0] && Less(a[1..], b[1..])))
  }

  // The strings agree up to position k, where a ends and b does not, or has the smaller character.
  predicate DecidesAt(a: string, b: string, k: nat) {
    k <= |a| && k < |b| && a[..k] == b[..k] && (k == |a| || a[k] < b[k])
  }

  // This is the order of the C library: the first difference decides, and a prefix comes first.
  lemma {:induction false} LessIsFirstDifference(a: string, b: string)
    ensures Less(a, b) <==> exists k: nat :: DecidesAt(a, b, k)
  {
    forall k: nat | 0 < k <= |a| && k < |b| ensures a[..k] == b[..k] ==> a[0] == b[0] {
      assert a[0] == a[..k][0] && b[0] == b[..k][0];
    }
    if a == "" || b == "" || a[0] != b[0] {
      if Less(a, b) {
        assert a[..0] == b[..0];
        assert DecidesAt(a, b, 0);
      }
    } else {
      LessIsFirstDifference(a[1..], b[1..]);
      if Less(a, b) {
        var k: nat :| DecidesAt(a[1..], b[1..], k);
        assert a[..k + 1] == [a[0]] + a[1..][..k] && b[..k + 1] == [b[0]] + b[1..][..k];
        assert DecidesAt(a, b, k + 1);
      }
      if exists k: nat :: DecidesAt(a, b, k) {
        var k: nat :| DecidesAt(a, b, k);
        assert k > 0;
        assert a[1..][..k - 1] == a[..k][1..] && b[1..][..k - 1] == b[..k][1..];
        assert DecidesAt(a[1..], b[1..], k - 1);
      }
    }
  }

  lemma {:induction false} LessIsStrict(a: string)
    ensures !Less(a, a)
  {
    if a == "" {
    } else {
      LessIsStrict(a[1..]);
    }
  }

  lemma {:induction false} LessIsTransitive(a: string, b: string, c: string)
    requires Less(a, b) && Less(b, c)
    ensures Less(a, c)
  {
    if a != "" && a[0] == b[0] == c[0] {
      LessIsTransitive(a[1..], b[1..], c[1..]);
    }
  }

  lemma {:induction false} LessIsTotal(a: string, b: string)
    ensures a == b || Less(a, b) || Less(b, a)
  {
    if a != "" && b != "" && a[0] == b[0] {
      LessIsTotal(a[1..], b[1..]);
      assert a == [a[0]] + a[1..] && b == [b[0]] + b[1..];
    }
  }

  /* ---- The vector ---- */

  predicate AllAbove(m: seq<Entry>, k: string) { forall e :: e in m ==> Less(k, e.key) }

  predicate Sorted(m: seq<Entry>) { m == [] || (AllAbove(m[1..], m[0].key) && Sorted(m[1..])) }

  function AsMap(m: seq<Entry>): map<string, string> {
    if m == [] then map[] else AsMap(m[1..])[m[0].key := m[0].value]
  }

  // KeyedVector::add: an existing key gets the new value, a new one its place.
  function Add(m: seq<Entry>, k: string, v: string): seq<Entry> {
    if m == [] then [Entry(k, v)]
    else if m[0].key == k then [Entry(k, v)] + m[1..]
    else if Less(k, m[0].key) then [Entry(k, v)] + m
    else [m[0]] + Add(m[1..], k, v)
  }

  // KeyedVector::removeItem.
  function RemoveItem(m: seq<Entry>, k: string): seq<Entry> {
    if m == [] then [] else if m[0].key == k then m[1..] else [m[0]] + RemoveItem(m[1..], k)
  }

  // DefaultKeyedVector::valueFor: the empty string for a key that is not there.
  function ValueFor(m: seq<Entry>, k: string): string {
    if m == [] then "" else if m[0].key == k then m[0].value else ValueFor(m[1..], k)
  }

  lemma {:induction false} ValueForIsLookup(m: seq<Entry>, k: string)
    ensures ValueFor(m, k) == if k in AsMap(m) then AsMap(m)[k] else ""
  {
    if m == [] {
    } else {
      ValueForIsLookup(m[1..], k);
    }
  }

  lemma {:induction false} KeysOf(m: seq<Entry>, k: string)
    ensures k in AsMap(m) <==> exists e :: e in m && e.key == k
  {
    if m == [] {
    } else {
      KeysOf(m[1..], k);
      assert m == [m[0]] + m[1..];
    }
  }

  lemma {:induction false} AddMembers(m: seq<Entry>, k: string, v: string)
    ensures forall e :: e in Add(m, k, v) ==> e in m || e == Entry(k, v)
    ensures Entry(k, v) in Add(m, k, v)
  {
    if m != [] && m[0].key != k && !Less(k, m[0].key) {
      AddMembers(m[1..], k, v);
    }
  }

  lemma AboveAll(m: seq<Entry>, k: string)
    requires Sorted(m) && m != [] && Less(k, m[0].key)
    ensures AllAbove(m, k)
  {
    forall e | e in m ensures Less(k, e.key) {
      if e != m[0] {
        LessIsTransitive(k, m[0].key, e.key);
      }
    }
  }

  lemma {:induction false} AddSorted(m: seq<Entry>, k: string, v: string)
    requires Sorted(m)
    ensures Sorted(Add(m, k, v))
  {
    if m == [] {
      assert Add(m, k, v)[1..] == [];
    } else if m[0].key == k {
      assert Add(m, k, v)[1..] == m[1..];
    } else if Less(k, m[0].key) {
      AboveAll(m, k);
      assert ([Entry(k, v)] + m)[1..] == m;
    } else {
      LessIsTotal(k, m[0].key);
      AddSorted(m[1..], k, v);
      AddMembers(m[1..], k, v);
      assert Add(m, k, v)[1..] == Add(m[1..], k, v);
    }
  }

  lemma {:induction false} AddBinds(m: seq<Entry>, k: string, v: string)
    requires Sorted(m)
    ensures AsMap(Add(m, k, v)) == AsMap(m)[k := v]
  {
    if m == [] {
      assert Add(m, k, v)[1..] == [];
    } else if m[0].key == k {
      assert Add(m, k, v)[1..] == m[1..];
    } else if Less(k, m[0].key) {
      assert ([Entry(k, v)] + m)[1..] == m;
    } else {
      AddBinds(m[1..], k, v);
      assert Add(m, k, v)[1..] == Add(m[1..], k, v);
    }
  }

  lemma AddKeeps(m: seq<Entry>, k: string, v: string)
    requires Sorted(m)
    ensures Sorted(Add(m, k, v)) && AsMap(Add(m, k, v)) == AsMap(m)[k := v]
    ensures forall e :: e in Add(m, k, v) ==> e in m || e == Entry(k, v)
  {
    AddSorted(m, k, v);
    AddBinds(m, k, v);
    AddMembers(m, k, v);
  }

  lemma {:induction false} RemoveKeeps(m: seq<Entry>, k: string)
    requires Sorted(m)
    ensures Sorted(RemoveItem(m, k)) && AsMap(RemoveItem(m, k)) == AsMap(m) - {k}
    ensures forall e :: e in RemoveItem(m, k) ==> e in m
  {
    if m == [] {
    } else {
      if m[0].key == k {
        TailIsRest(m);
      } else {
        RemoveKeeps(m[1..], k);
        assert RemoveItem(m, k)[1..] == RemoveItem(m[1..], k);
      }
    }
  }

  lemma OnlyEmptyBindsNothing(m: seq<Entry>)
    ensures AsMap(m) == map[] <==> m == []
  {
    assert m != [] ==> m[0].key in AsMap(m);
  }

  // Two sorted vectors with the same bindings are the same vector.
  lemma {:induction false} SortedIsCanonical(m: seq<Entry>, n: seq<Entry>)
    requires Sorted(m) && Sorted(n) && AsMap(m) == AsMap(n)
    ensures m == n
  {
    OnlyEmptyBindsNothing(m);
    OnlyEmptyBindsNothing(n);
    if m == [] {
    } else {
      SameHead(m, n);
      SameTail(m, n);
      SortedIsCanonical(m[1..], n[1..]);
      assert m == [m[0]] + m[1..] && n == [n[0]] + n[1..];
    }
  }

  lemma SameHead(m: seq<Entry>, n: seq<Entry>)
    requires Sorted(m) && Sorted(n) && AsMap(m) == AsMap(n) && m != [] && n != []
    ensures m[0] == n[0]
  {
    HeadIsLeast(m, n[0].key);
    HeadIsLeast(n, m[0].key);
    if Less(m[0].key, n[0].key) && Less(n[0].key, m[0].key) {
      LessIsTransitive(m[0].key, n[0].key, m[0].key);
      LessIsStrict(m[0].key);
    }
    assert AsMap(m)[m[0].key] == m[0].value;
  }

  lemma HeadIsLeast(m: seq<Entry>, k: string)
    requires Sorted(m) && m != [] && k in AsMap(m)
    ensures m[0].key == k || Less(m[0].key, k)
  {
    KeysOf(m, k);
    var e :| e in m && e.key == k;
    assert m == [m[0]] + m[1..];
  }

  lemma SameTail(m: seq<Entry>, n: seq<Entry>)
    requires Sorted(m) && Sorted(n) && AsMap(m) == AsMap(n) && m != [] && n != [] && m[0] == n[0]
    ensures AsMap(m[1..]) == AsMap(n[1..])
  {
    TailIsRest(m);
    TailIsRest(n);
  }

  lemma TailIsRest(m: seq<Entry>)
    requires Sorted(m) && m != []
    ensures AsMap(m[1..]) == AsMap(m) - {m[0].key}
  {
    LessIsStrict(m[0].key);
    KeysOf(m[1..], m[0].key);
  }

  /* ---- The text form ---- */

  function Flatten(m: seq<Entry>): string {
    if m == [] then ""
    else m[0].key + "=" + m[0].value + (if |m| > 1 then ";" + Flatten(m[1..]) else "")
  }

  // The text is the entries as key=value with ';' between them.
  lemma {:induction false} FlattenJoins(m: seq<Entry>, n: seq<Entry>)
    requires m != [] && n != []
    ensures Flatten(m + n) == Flatten(m) + ";" + Flatten(n)
    ensures Flatten([m[0]]) == m[0].key + "=" + m[0].value
  {
    assert (m + n)[1..] == m[1..] + n;
    if |m| == 1 {
      assert m[1..] + n == n;
    } else {
      FlattenJoins(m[1..], n);
    }
  }

  // The bindings unflatten adds, in order, from position i on.
  function Pairs(s: string, i: nat): seq<Entry>
    requires i <= |s|
    decreases |s| - i
  {
    var b := Find(s, '=', i);
    if b == |s| then []
    else
      var e := Find(s, ';', b + 1);
      [Entry(s[i..b], s[b + 1..e])] + (if e == |s| then [] else Pairs(s, e + 1))
  }

  function AddAll(m: seq<Entry>, pairs: seq<Entry>): seq<Entry>
    decreases |pairs|
  {
    if pairs == [] then m else AddAll(Add(m, pairs[0].key, pairs[0].value), pairs[1..])
  }

  lemma AddAllNone(m: seq<Entry>)
    ensures AddAll(m, []) == m
  {
  }

  lemma AddAllFirst(m: seq<Entry>, e: Entry, rest: seq<Entry>)
    ensures AddAll(m, [e] + rest) == AddAll(Add(m, e.key, e.value), rest)
  {
    assert ([e] + rest)[1..] == rest;
  }

  function Unflatten(s: string): seq<Entry> { AddAll([], Pairs(s, 0)) }

  /* ---- Well-formed maps ---- */

  predicate WellFormedEntry(e: Entry) { '=' !in e.key && ';' !in e.value }

  predicate WellFormed(m: seq<Entry>) { Sorted(m) && forall e :: e in m ==> WellFormedEntry(e) }

  lemma {:induction false} PairsAreWellFormed(s: string, i: nat)
    requires i <= |s|
    ensures forall e :: e in Pairs(s, i) ==> WellFormedEntry(e)
    decreases |s| - i
  {
    hide Pairs, Find;
    var b := Find(s, '=', i);
    if b == |s| {
      PairsEnd(s, i);
    } else {
      var e := Find(s, ';', b + 1);
      PairsStep(s, i, b, e);
      assert WellFormedEntry(Entry(s[i..b], s[b + 1..e]));
      if e < |s| {
        PairsAreWellFormed(s, e + 1);
      }
    }
  }

  lemma {:induction false} AddAllKeeps(m: seq<Entry>, pairs: seq<Entry>)
    requires WellFormed(m) && forall e :: e in pairs ==> WellFormedEntry(e)
    ensures WellFormed(AddAll(m, pairs))
    decreases |pairs|
  {
    if pairs == [] {
    } else {
      AddKeeps(m, pairs[0].key, pairs[0].value);
      assert pairs[0] in pairs;
      AddAllKeeps(Add(m, pairs[0].key, pairs[0].value), pairs[1..]);
    }
  }

  // Whatever text is unflattened, the keys have no '=' and the values no ';'.
  lemma UnflattenIsWellFormed(s: string)
    ensures WellFormed(Unflatten(s))
  {
    PairsAreWellFormed(s, 0);
    AddAllKeeps([], Pairs(s, 0));
  }

  /* ---- Round trips ---- */

  lemma PairsStep(s: string, i: nat, b: nat, e: nat)
    requires i <= |s| && Find(s, '=', i) == b < |s| && Find(s, ';', b + 1) == e
    ensures Pairs(s, i) == [Entry(s[i..b], s[b + 1..e])] + (if e == |s| then [] else Pairs(s, e + 1))
  {
  }

  lemma PairsEnd(s: string, i: nat)
    requires i <= |s| && Find(s, '=', i) == |s|
    ensures Pairs(s, i) == []
  {
  }

  lemma FlattenStep(m: seq<Entry>, tail: string)
    requires m != []
    ensures Flatten(m) + tail
         == m[0].key + "=" + m[0].value + (if |m| > 1 then ";" + Flatten(m[1..]) + tail else tail)
  {
  }

  // Reading one entry off text that begins with it.
  lemma PairsOfOne(s: string, i: nat, first: Entry, rest: string)
    requires i <= |s| && WellFormedEntry(first) && (rest == "" || rest[0] == ';')
    requires s[i..] == first.key + "=" + first.value + rest
    ensures var e := i + |first.key| + 1 + |first.value|;
      && e <= |s| && (e == |s| <==> rest == "") && |s| - |rest| == e
      && Pairs(s, i) == [first] + (if rest == "" then [] else Pairs(s, e + 1))
      && (rest != "" ==> s[e + 1..] == rest[1..])
  {
    hide Pairs, Find;
    var b := i + |first.key|;
    var e := b + 1 + |first.value|;
    HeadOfFlattened(s, i, first.key, first.value, rest);
    PairsStep(s, i, b, e);
    if rest != "" {
      assert rest == ";" + rest[1..];
      RestOfFlattened(s, i, first.key + "=" + first.value, rest[1..]);
    }
  }

  // Reading text that begins with a flattened map gives its entries and then those of the rest.
  lemma {:induction false} PairsOfFlattened(s: string, i: nat, m: seq<Entry>, tail: string)
    requires i <= |s| && m != [] && (forall e :: e in m ==> WellFormedEntry(e))
    requires s[i..] == Flatten(m) + tail && (tail == "" || tail[0] == ';')
    ensures Pairs(s, i) == m + (if tail == "" then [] else Pairs(s, |s| - |tail| + 1))
    decreases |m|
  {
    hide Pairs, Flatten, WellFormedEntry;
    var rest := if |m| > 1 then ";" + Flatten(m[1..]) + tail else tail;
    FlattenStep(m, tail);
    assert m[0] in m;
    PairsOfOne(s, i, m[0], rest);
    if |m| > 1 {
      assert rest[1..] == Flatten(m[1..]) + tail;
      assert forall x :: x in m[1..] ==> x in m;
      var e := i + |m[0].key| + 1 + |m[0].value|;
      PairsOfFlattened(s, e + 1, m[1..], tail);
      assert m == [m[0]] + m[1..];
    } else {
      assert m == [m[0]];
    }
  }

  lemma RestOfFlattened(s: string, i: nat, head: string, rest: string)
    requires i <= |s| && s[i..] == head + (";" + rest)
    ensures i + |head| + 1 <= |s| && s[i + |head| + 1..] == rest
  {
    assert s[i + |head| + 1..] == s[i..][|head| + 1..];
  }

  lemma HeadOfFlattened(s: string, i: nat, k: string, v: string, rest: string)
    requires i <= |s| && s[i..] == k + "=" + v + rest && '=' !in k && ';' !in v && (rest == "" || rest[0] == ';')
    ensures var b := i + |k|;
      var e := b + 1 + |v|;
      && Find(s, '=', i) == b < |s| && Find(s, ';', b + 1) == e && (e == |s| <==> rest == "")
      && s[i..b] == k && s[b + 1..e] == v
  {
    var b := i + |k|;
    var e := b + 1 + |v|;
    assert forall j :: i <= j < |s| ==> s[j] == s[i..][j - i];
    FindIs(s, '=', i, b);
    FindIs(s, ';', b + 1, e);
  }

  lemma {:induction false} AddAbove(m: seq<Entry>, k: string, v: string)
    requires forall e :: e in m ==> Less(e.key, k)
    ensures Add(m, k, v) == m + [Entry(k, v)]
  {
    if m == [] {
    } else {
      assert m[0] in m;
      if m[0].key == k || Less(k, m[0].key) {
        if Less(k, m[0].key) {
          LessIsTransitive(k, m[0].key, k);
        }
        LessIsStrict(k);
      }
      AddAbove(m[1..], k, v);
    }
  }

  // Adding entries in order above everything there appends them.
  lemma {:induction false} AddAllAppends(m: seq<Entry>, n: seq<Entry>)
    requires Sorted(n) && forall a, b :: a in m && b in n ==> Less(a.key, b.key)
    ensures AddAll(m, n) == m + n
    decreases |n|
  {
    if n != [] {
      assert n[0] in n;
      AddAbove(m, n[0].key, n[0].value);
      AddAllAppends(m + [n[0]], n[1..]);
      assert n == [n[0]] + n[1..];
    } else {
      assert m + n == m;
    }
  }

  lemma {:induction false} AddAllInSteps(m: seq<Entry>, p: seq<Entry>, q: seq<Entry>)
    ensures AddAll(m, p + q) == AddAll(AddAll(m, p), q)
    decreases |p|
  {
    if p == [] {
      assert p + q == q;
    } else {
      assert (p + q)[1..] == p[1..] + q;
      AddAllInSteps(Add(m, p[0].key, p[0].value), p[1..], q);
    }
  }

  lemma UnflattenFlattened(m: seq<Entry>)
    requires forall e :: e in m ==> WellFormedEntry(e)
    ensures Unflatten(Flatten(m)) == AddAll([], m)
  {
    if m == [] {
      assert Pairs("", 0) == [];
    } else {
      hide Flatten, Pairs;
      assert Flatten(m)[0..] == Flatten(m) + "";
      PairsOfFlattened(Flatten(m), 0, m, "");
      assert m + [] == m;
    }
  }

  // Main result: flattening and unflattening gives back every well-formed map.
  lemma RoundTrip(m: seq<Entry>)
    requires WellFormed(m)
    ensures Unflatten(Flatten(m)) == m
  {
    UnflattenFlattened(m);
    AddAllAppends([], m);
    assert [] + m == m;
  }

  // What the camera wrapper does to every parameter string on its way in and out.
  function Fixup(s: string): string { Flatten(Unflatten(s)) }

  // Main result: the fixed-up string means the same as the string, and fixing it again changes nothing.
  lemma FixupKeepsMeaning(s: string)
    ensures Unflatten(Fixup(s)) == Unflatten(s)
    ensures Fixup(Fixup(s)) == Fixup(s)
  {
    UnflattenIsWellFormed(s);
    RoundTrip(Unflatten(s));
  }

  /* ---- Last wins ---- */

  // A trailing ';' adds nothing.
  lemma {:induction false} TrailingSeparator(s: string, i: nat)
    requires i <= |s|
    ensures Pairs(s + ";", i) == Pairs(s, i)
    decreases |s| - i
  {
    hide Pairs, Find;
    var t := s + ";";
    var b := Find(s, '=', i);
    if b == |s| {
      FindIs(t, '=', i, |t|);
      PairsEnd(t, i);
      PairsEnd(s, i);
    } else {
      var e := Find(s, ';', b + 1);
      FindIs(t, '=', i, b);
      FindIs(t, ';', b + 1, e);
      PairsStep(s, i, b, e);
      PairsStep(t, i, b, e);
      assert t[i..b] == s[i..b] && t[b + 1..e] == s[b + 1..e];
      if e < |s| {
        TrailingSeparator(s, e + 1);
      } else {
        NothingAtEnd(t);
      }
    }
  }

  lemma NothingAtEnd(s: string)
    ensures Pairs(s, |s|) == []
  {
  }

  lemma UnflattenIgnoresTrailingSeparator(s: string)
    ensures Unflatten(s + ";") == Unflatten(s)
  {
    TrailingSeparator(s, 0);
  }

  lemma MergeBound(m: map<string, string>, k: string, v: string, later: map<string, string>)
    ensures m[k := v] + later == m + (map[k := v] + later)
  {
  }

  lemma {:induction false} AddAllMap(m: seq<Entry>, pairs: seq<Entry>)
    requires Sorted(m)
    ensures AsMap(AddAll(m, pairs)) == AsMap(m) + AsMap(AddAll([], pairs))
    decreases |pairs|
  {
    hide Add, AsMap;
    EmptyBindsNothing();
    if pairs == [] {
    } else {
      var k, v := pairs[0].key, pairs[0].value;
      AddKeeps(m, k, v);
      AddKeeps([], k, v);
      AddAllMap(Add(m, k, v), pairs[1..]);
      AddAllMap(Add([], k, v), pairs[1..]);
      MergeBound(AsMap(m), k, v, AsMap(AddAll([], pairs[1..])));
      assert map[][k := v] == map[k := v];
    }
  }

  lemma EmptyBindsNothing()
    ensures AsMap([]) == map[]
  {
  }

  lemma FindInSuffix(s: string, i: nat, c: char, j: nat)
    requires i + j <= |s|
    ensures Find(s, c, i + j) == i + Find(s[i..], c, j)
  {
    var t := s[i..];
    var b := Find(t, c, j);
    assert b < |t| ==> t[b] == s[i + b];
    forall k | i + j <= k < i + b ensures s[k] != c {
      assert t[k - i] == s[k];
    }
    FindIs(s, c, i + j, i + b);
  }

  lemma SliceOfSuffix(s: string, i: nat, a: nat, b: nat)
    requires i + a <= i + b <= |s|
    ensures s[i..][a..b] == s[i + a..i + b]
  {
  }

  lemma {:induction false} PairsOfSuffix(s: string, i: nat, j: nat)
    requires i + j <= |s|
    ensures Pairs(s, i + j) == Pairs(s[i..], j)
    decreases |s| - i - j
  {
    hide Find, Pairs;
    var t := s[i..];
    var b := Find(t, '=', j);
    FindInSuffix(s, i, '=', j);
    if b == |t| {
      PairsEnd(t, j);
      PairsEnd(s, i + j);
    } else {
      var e := Find(t, ';', b + 1);
      FindInSuffix(s, i, ';', b + 1);
      PairsStep(t, j, b, e);
      PairsStep(s, i + j, i + b, i + e);
      SliceOfSuffix(s, i, j, b);
      SliceOfSuffix(s, i, b + 1, e);
      if e < |t| {
        PairsOfSuffix(s, i, e + 1);
      }
    }
  }

  // Main result: text after a flattened map overrides it, binding by binding.
  lemma LastWins(m: seq<Entry>, s: string)
    requires WellFormed(m) && m != []
    ensures AsMap(Unflatten(Flatten(m) + ";" + s)) == AsMap(m) + AsMap(Unflatten(s))
  {
    hide Flatten, Pairs, AddAll, AsMap;
    var t := Flatten(m) + ";" + s;
    var i := |Flatten(m)| + 1;
    assert t[0..] == Flatten(m) + (";" + s);
    PairsOfFlattened(t, 0, m, ";" + s);
    assert t[i..] == s;
    PairsOfSuffix(t, i, 0);
    AddAllInSteps([], m, Pairs(s, 0));
    AddAllAppends([], m);
    assert [] + m == m;
    AddAllMap(m, Pairs(s, 0));
  }

  // Joining two flattened maps with ';' merges them exactly when the first is not empty or the second is:
  // an empty first map leaves the ';' in the first key of the second.
  lemma JoinMergesIff(m: seq<Entry>, n: seq<Entry>)
    requires WellFormed(m) && WellFormed(n)
    ensures AsMap(Unflatten(Flatten(m) + ";" + Flatten(n))) == AsMap(m) + AsMap(n) <==> m != [] || n == []
  {
    RoundTrip(n);
    if m != [] {
      LastWins(m, Flatten(n));
    } else if n == [] {
      assert Flatten(m) + ";" + Flatten(n) == ";";
      FindIs(";", '=', 0, 1);
      assert AsMap(m) + AsMap(n) == map[];
    } else {
      KeyTakesSeparator(n);
      assert Flatten(m) + ";" + Flatten(n) == ";" + Flatten(n);
      assert n[0].key in AsMap(n);
    }
  }

  lemma FlattenPrefixedKey(n: seq<Entry>)
    requires n != []
    ensures Flatten([Entry(";" + n[0].key, n[0].value)] + n[1..]) == ";" + Flatten(n)
  {
    var first := Entry(";" + n[0].key, n[0].value);
    var p := [first] + n[1..];
    FlattenStep(p, "");
    FlattenStep(n, "");
    assert p[1..] == n[1..] && |p| == |n|;
    hide Flatten;
    var rest := if |n| > 1 then ";" + Flatten(n[1..]) + "" else "";
    PrefixMoves(n[0].key, n[0].value, rest);
    assert Flatten(p) + "" == Flatten(p) && Flatten(n) + "" == Flatten(n);
  }

  lemma PrefixMoves(k: string, v: string, rest: string)
    ensures (";" + k) + "=" + v + rest == ";" + (k + "=" + v + rest)
  {
  }

  lemma OthersDiffer(n: seq<Entry>)
    requires WellFormed(n) && n != []
    ensures forall e :: e in n[1..] ==> WellFormedEntry(e) && e.key != n[0].key
  {
    forall e | e in n[1..] ensures WellFormedEntry(e) && e.key != n[0].key {
      assert e in n && Less(n[0].key, e.key);
      LessIsStrict(n[0].key);
    }
  }

  lemma KeyTakesSeparator(n: seq<Entry>)
    requires WellFormed(n) && n != []
    ensures n[0].key !in AsMap(Unflatten(";" + Flatten(n)))
  {
    hide Flatten, Unflatten, AddAll, AsMap;
    var first := Entry(";" + n[0].key, n[0].value);
    var p := [first] + n[1..];
    FlattenPrefixedKey(n);
    OthersDiffer(n);
    hide Sorted;
    assert n[0] in n;
    assert |first.key| == |n[0].key| + 1;
    assert forall e :: e in p ==> e == first || e in n[1..];
    assert Flatten(p) == ";" + Flatten(n);
    UnflattenFlattened(p);
    EmptyBindsNothing();
    AddsOnlyItsKeys([], p, n[0].key);
  }

  lemma {:induction false} AddsOnlyItsKeys(m: seq<Entry>, pairs: seq<Entry>, k: string)
    requires Sorted(m) && k !in AsMap(m) && forall e :: e in pairs ==> e.key != k
    ensures k !in AsMap(AddAll(m, pairs))
    decreases |pairs|
  {
    if pairs == [] {
    } else {
      AddKeeps(m, pairs[0].key, pairs[0].value);
      assert pairs[0] in pairs;
      AddsOnlyItsKeys(Add(m, pairs[0].key, pairs[0].value), pairs[1..], k);
    }
  }
}
