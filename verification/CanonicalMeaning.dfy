/** What canonical text says about the value it came from. */
module CanonicalMeaning {
  import opened Basics
  import opened Utf
  import opened CanonicalJson
  import FloatText

  /** A value up to the order of members: mappings are maps. */
  datatype Meaning =
    | MNull
    | MBool(flag: bool)
    | MInt(number: int)
    | MFloat(float: FloatText.Float)
    | MText(text: Text)
    | MList(items: seq<Meaning>)
    | MMap(members: map<Text, Meaning>)
    | MUnsupported

  function Mean(v: Json): Meaning
    decreases v, 1
  {
    match v
    case Null => MNull
    case Bool(b) => MBool(b)
    case Int(n) => MInt(n)
    case Float(f) => MFloat(f)
    case Str(t) => MText(t)
    case Arr(vs) => MList(MeanItems(vs, v))
    case Obj(ms) => MMap(MeanMembers(ms, v))
    case Unsupported => MUnsupported
  }

  function MeanItems(vs: seq<Json>, ghost context: Json): (r: seq<Meaning>)
    requires forall i :: 0 <= i < |vs| ==> vs[i] < context
    ensures |r| == |vs| && forall i :: 0 <= i < |vs| ==> r[i] == Mean(vs[i])
    decreases context, 0, |vs|
  {
    if vs == [] then [] else [Mean(vs[0])] + MeanItems(vs[1..], context)
  }

  /** Later members win, as in a dictionary. */
  function MeanMembers(ms: seq<Member>, ghost context: Json): map<Text, Meaning>
    requires forall i :: 0 <= i < |ms| ==> ms[i].value < context
    decreases context, 0, |ms|
  {
    if ms == [] then map[]
    else
      var last := ms[|ms| - 1];
      MeanMembers(ms[..|ms| - 1], context)[last.key := Mean(last.value)]
  }

  ghost predicate HasKey(ms: seq<Member>, k: Text) {
    exists i :: 0 <= i < |ms| && ms[i].key == k
  }

  /** The map of distinct members holds exactly their keys, each with the meaning of its value. */
  lemma {:induction false} MembersMap(ms: seq<Member>, context: Json)
    requires DistinctKeys(ms) && forall i :: 0 <= i < |ms| ==> ms[i].value < context
    ensures forall k :: k in MeanMembers(ms, context) <==> HasKey(ms, k)
    ensures forall i :: 0 <= i < |ms| ==>
              ms[i].key in MeanMembers(ms, context) && MeanMembers(ms, context)[ms[i].key] == Mean(ms[i].value)
    decreases |ms|
  {
    hide Mean;
    if ms != [] {
      var init, last := ms[..|ms| - 1], ms[|ms| - 1];
      MembersMap(init, context);
      forall k ensures k in MeanMembers(ms, context) <==> HasKey(ms, k) {
        if HasKey(ms, k) && k != last.key {
          var i :| 0 <= i < |ms| && ms[i].key == k;
          assert init[i].key == k;
        }
        if HasKey(init, k) {
          var i :| 0 <= i < |init| && init[i].key == k;
          assert ms[i].key == k;
        }
      }
      forall i | 0 <= i < |ms|
        ensures ms[i].key in MeanMembers(ms, context) && MeanMembers(ms, context)[ms[i].key] == Mean(ms[i].value)
      {
        if i < |init| {
          assert init[i] == ms[i];
          assert ms[i].key != last.key;
        }
      }
    }
  }

  /** Two sequences hold the same keys in the same places, and values that mean the same. */
  ghost predicate Agree(a: seq<Member>, b: seq<Member>) {
    |a| == |b| && forall i :: 0 <= i < |a| ==> a[i].key == b[i].key && Mean(a[i].value) == Mean(b[i].value)
  }

  lemma {:induction false} OrderedKeysAreUnique(a: seq<Member>, b: seq<Member>)
    requires Ordered(a) && Ordered(b)
    requires forall k :: HasKey(a, k) <==> HasKey(b, k)
    ensures |a| == |b| && forall i :: 0 <= i < |a| ==> a[i].key == b[i].key
  {
    hide Before;
    if a != [] {
      assert HasKey(a, a[0].key);
    }
    if b != [] {
      assert HasKey(b, b[0].key);
    }
    if a != [] && b != [] {
      FirstKeys(a, b);
      forall k ensures HasKey(a[1..], k) <==> HasKey(b[1..], k) {
        TailKey(a, k);
        TailKey(b, k);
      }
      OrderedKeysAreUnique(a[1..], b[1..]);
    }
  }

  lemma FirstKeys(a: seq<Member>, b: seq<Member>)
    requires a != [] && b != [] && Ordered(a) && Ordered(b)
    requires HasKey(b, a[0].key) && HasKey(a, b[0].key)
    ensures a[0].key == b[0].key
  {
    var i :| 0 <= i < |b| && b[i].key == a[0].key;
    var j :| 0 <= j < |a| && a[j].key == b[0].key;
    if i > 0 && j > 0 {
      LexAsymmetric(Utf16Be(b[0].key), Utf16Be(b[i].key));
    }
  }

  lemma TailKey(a: seq<Member>, k: Text)
    requires a != [] && Ordered(a)
    ensures HasKey(a[1..], k) <==> HasKey(a, k) && k != a[0].key
  {
    if HasKey(a[1..], k) {
      var i :| 0 <= i < |a[1..]| && a[1..][i].key == k;
      assert a[i + 1].key == k;
      LexAsymmetric(Utf16Be(a[0].key), Utf16Be(k));
    }
    if HasKey(a, k) && k != a[0].key {
      var i :| 0 <= i < |a| && a[i].key == k;
      assert a[1..][i - 1].key == k;
    }
  }

  /** Sorting keeps a member sequence well formed. */
  lemma SortKeepsValid(v: Json)
    requires v.Obj? && IJson(v)
    ensures var s := Sort(v.members);
            && Ordered(s) && DistinctKeys(s) && ScalarKeys(s)
            && (forall i :: 0 <= i < |s| ==> s[i] in v.members && s[i].value < v && IJson(s[i].value))
            && (forall k :: HasKey(s, k) <==> HasKey(v.members, k))
  {
    var ms := v.members;
    var s := Sort(ms);
    SortOrders(ms);
    SortKeepsMembers(ms);
    hide Sort;
    forall i | 0 <= i < |s| ensures s[i] in ms && s[i].value < v && IJson(s[i].value) && AllScalar(s[i].key) {
      assert s[i] in s;
      var j :| 0 <= j < |ms| && ms[j] == s[i];
    }
    forall i, j | 0 <= i < j < |s| ensures s[i].key != s[j].key {
      LexAsymmetric(Utf16Be(s[i].key), Utf16Be(s[j].key));
    }
    forall k ensures HasKey(s, k) <==> HasKey(ms, k) {
      if HasKey(ms, k) {
        var j :| 0 <= j < |ms| && ms[j].key == k;
        assert ms[j] in s;
      }
      if HasKey(s, k) {
        var j :| 0 <= j < |s| && s[j].key == k;
        assert s[j] in ms;
      }
    }
  }

  /** Two maps of distinct members are equal when the members agree up to order. */
  lemma SameMap(a: seq<Member>, x: Json, b: seq<Member>, y: Json)
    requires DistinctKeys(a) && forall i :: 0 <= i < |a| ==> a[i].value < x
    requires DistinctKeys(b) && forall i :: 0 <= i < |b| ==> b[i].value < y
    requires forall k :: HasKey(a, k) <==> HasKey(b, k)
    requires forall i, j :: 0 <= i < |a| && 0 <= j < |b| && a[i].key == b[j].key ==> Mean(a[i].value) == Mean(b[j].value)
    ensures MeanMembers(a, x) == MeanMembers(b, y)
  {
    hide Mean, MeanMembers;
    MembersMap(a, x);
    MembersMap(b, y);
    var m, n := MeanMembers(a, x), MeanMembers(b, y);
    assert m.Keys == n.Keys;
    forall k | k in m ensures m[k] == n[k] {
      var i :| 0 <= i < |a| && a[i].key == k;
      var j :| 0 <= j < |b| && b[j].key == k;
    }
  }

  lemma SortedMeans(v: Json)
    requires v.Obj? && IJson(v)
    ensures forall i :: 0 <= i < |Sort(v.members)| ==> Sort(v.members)[i].value < v
    ensures MeanMembers(Sort(v.members), v) == MeanMembers(v.members, v)
  {
    hide Mean, MeanMembers, Sort;
    var ms, s := v.members, Sort(v.members);
    SortKeepsValid(v);
    forall i, j | 0 <= i < |s| && 0 <= j < |ms| && s[i].key == ms[j].key ensures Mean(s[i].value) == Mean(ms[j].value) {
      var h :| 0 <= h < |ms| && ms[h] == s[i];
      assert h == j;
    }
    SameMap(s, v, ms, v);
  }

  /** Values of the same meaning have the same canonical text. */
  lemma {:induction false} SameMeaningSameText(a: Json, b: Json)
    requires IJson(a) && IJson(b) && Mean(a) == Mean(b)
    ensures Print(a) == Print(b)
    decreases a, 1
  {
    hide FloatText.CanonicalFloat, Quote;
    match a
    case Arr(vs) =>
      assert b.Arr? && MeanItems(vs, a) == MeanItems(b.items, b);
      assert |vs| == |MeanItems(vs, a)| == |b.items|;
      forall i | 0 <= i < |vs| ensures Mean(vs[i]) == Mean(b.items[i]) {
        assert MeanItems(vs, a)[i] == MeanItems(b.items, b)[i];
      }
      SameItems(vs, a, b.items, b);
    case Obj(ms) => SameMembersSorted(a, b);
    case _ =>
  }

  lemma {:induction false} SameItems(vs: seq<Json>, a: Json, ws: seq<Json>, b: Json)
    requires |vs| == |ws|
    requires forall i :: 0 <= i < |vs| ==> vs[i] < a && ws[i] < b && IJson(vs[i]) && IJson(ws[i]) && Mean(vs[i]) == Mean(ws[i])
    ensures PrintItems(vs, a) == PrintItems(ws, b)
    decreases a, 0, |vs|
  {
    hide Print, IJson, Mean;
    if vs != [] {
      SameMeaningSameText(vs[0], ws[0]);
      SameItems(vs[1..], a, ws[1..], b);
    }
  }

  lemma {:induction false} SameMembersSorted(a: Json, b: Json)
    requires a.Obj? && b.Obj? && IJson(a) && IJson(b) && Mean(a) == Mean(b)
    ensures Print(a) == Print(b)
    decreases a, 0
  {
    hide Quote, MeanMembers, Sort, PrintMembers;
    var s, t := Sort(a.members), Sort(b.members);
    SortKeepsValid(a);
    SortKeepsValid(b);
    SortedMeans(a);
    SortedMeans(b);
    MembersMap(s, a);
    MembersMap(t, b);
    OrderedKeysAreUnique(s, t);
    SameMembers(s, a, t, b);
  }

  lemma {:induction false} SameMembers(s: seq<Member>, a: Json, t: seq<Member>, b: Json)
    requires Agree(s, t) && ScalarKeys(s)
    requires forall m :: m in s ==> m.value < a && AllScalar(m.key) && IJson(m.value)
    requires forall m :: m in t ==> m.value < b && AllScalar(m.key) && IJson(m.value)
    ensures PrintMembers(s, a) == PrintMembers(t, b)
    decreases a, 0, |s|
  {
    hide Print, IJson, Mean, Quote, AllScalar;
    if s != [] {
      assert s[0] in s && t[0] in t;
      SameMeaningSameText(s[0].value, t[0].value);
      SameMembers(s[1..], a, t[1..], b);
    }
  }

  /** Putting members in canonical order changes neither the meaning nor membership of I-JSON. */
  lemma {:induction false} NormalKeepsMeaning(v: Json)
    requires IJson(v)
    ensures Mean(Normal(v)) == Mean(v)
    decreases v
  {
    match v
    case Arr(vs) =>
      forall i | 0 <= i < |vs| ensures Mean(Normal(vs[i])) == Mean(vs[i]) {
        NormalKeepsMeaning(vs[i]);
      }
      assert MeanItems(Normal(v).items, Normal(v)) == MeanItems(vs, v);
    case Obj(ms) =>
      SortKeepsValid(v);
      forall i | 0 <= i < |Sort(ms)| ensures Mean(Normal(Sort(ms)[i].value)) == Mean(Sort(ms)[i].value) {
        NormalKeepsMeaning(Sort(ms)[i].value);
      }
      NormalMap(v);
    case _ =>
  }

  lemma NormalMap(v: Json)
    requires v.Obj? && IJson(v)
    requires forall i :: 0 <= i < |Sort(v.members)| ==> Mean(Normal(Sort(v.members)[i].value)) == Mean(Sort(v.members)[i].value)
    ensures Mean(Normal(v)) == Mean(v)
  {
    var s, n := Sort(v.members), Normal(v);
    SortKeepsValid(v);
    SortedMeans(v);
    hide Sort, MeanMembers, IJson;
    assert |n.members| == |s| && forall i :: 0 <= i < |s| ==> n.members[i] == Member(s[i].key, Normal(s[i].value));
    forall k ensures HasKey(n.members, k) <==> HasKey(s, k) {
      if HasKey(n.members, k) {
        var i :| 0 <= i < |n.members| && n.members[i].key == k;
        assert s[i].key == k;
      }
      if HasKey(s, k) {
        var i :| 0 <= i < |s| && s[i].key == k;
        assert n.members[i].key == k;
      }
    }
    SameMap(n.members, n, s, v);
  }

  /** Canonical text parses back to a value of the same meaning. */
  lemma ParsesBack(v: Json)
    requires FloatFree(v) && CanonicalText(v).Some?
    ensures Read(CanonicalText(v).value).Some? && Mean(Read(CanonicalText(v).value).value) == Mean(v)
  {
    ReadPrint(v, "");
    assert Print(v) + "" == Print(v);
    NormalKeepsMeaning(v);
  }

  /** Canonical text is the same exactly for values that mean the same. */
  lemma CanonicalTextDecides(a: Json, b: Json)
    requires FloatFree(a) && FloatFree(b) && IJson(a) && IJson(b)
    ensures CanonicalText(a) == CanonicalText(b) <==> Mean(a) == Mean(b)
  {
    hide Print, Mean, IJson, FloatFree;
    if CanonicalText(a) == CanonicalText(b) {
      ParsesBack(a);
      ParsesBack(b);
    }
    if Mean(a) == Mean(b) {
      SameMeaningSameText(a, b);
    }
  }

  datatype DomainError = BadDomain | BadPayload

  /** The bytes that are signed or digested for a payload in a domain. */
  function DomainSeparated(domain: seq<int>, payload: Json): Result<seq<int>, DomainError> {
    if domain == [] || exists i :: 0 <= i < |domain| && !(0 < domain[i] < 128) then Err(BadDomain)
    else
      match CanonicalText(payload)
      case None => Err(BadPayload)
      case Some(text) => Ok(domain + [0] + Utf8(text))
  }

  /** No two domain and payload pairs of different meaning share their bytes. */
  lemma DomainSeparatedInjective(d: seq<int>, a: Json, e: seq<int>, b: Json)
    requires FloatFree(a) && FloatFree(b)
    requires DomainSeparated(d, a).Ok? && DomainSeparated(d, a) == DomainSeparated(e, b)
    ensures d == e && Mean(a) == Mean(b)
  {
    hide Print, Mean, IJson, FloatFree;
    var s, t := CanonicalText(a).value, CanonicalText(b).value;
    var x := d + [0] + Utf8(s);
    assert x == e + [0] + Utf8(t);
    assert x[|d|] == 0 && x[|e|] == 0;
    assert forall i :: 0 <= i < |d| ==> x[i] == d[i];
    assert forall i :: 0 <= i < |e| ==> x[i] == e[i];
    assert |d| == |e|;
    assert d == x[..|d|] == e;
    assert Utf8(s) == x[|d| + 1..] == Utf8(t);
    Utf8Injective(s, t);
    CanonicalTextDecides(a, b);
  }
}
