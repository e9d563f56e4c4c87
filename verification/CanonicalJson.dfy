/**
 Canonical JSON text (sections 3.2.2 and 3.2.3 of RFC 8785) over I-JSON values
 (section 2 of RFC 7493), and the reader that undoes it.
 */
module CanonicalJson {
  import opened Basics
  import opened Decimal
  import opened Utf
  import FloatText

  const MAX_SAFE_INTEGER := 0x1F_FFFF_FFFF_FFFF

  datatype Member = Member(key: Text, value: Json)

  /** A Python value; a mapping keeps its insertion order and has distinct keys. */
  datatype Json =
    | Null
    | Bool(flag: bool)
    | Int(number: int)
    | Float(float: FloatText.Float)
    | Str(text: Text)
    | Arr(items: seq<Json>)
    | Obj(members: seq<Member>)
    | Unsupported

  predicate DistinctKeys(ms: seq<Member>) {
    forall i, j :: 0 <= i < j < |ms| ==> ms[i].key != ms[j].key
  }

  /** Values the canonicalizer does not refuse. */
  predicate IJson(v: Json) {
    match v
    case Null => true
    case Bool(_) => true
    case Int(n) => -MAX_SAFE_INTEGER <= n <= MAX_SAFE_INTEGER
    case Float(f) => !f.NonFinite? && (f.Finite? ==> FloatText.ValidRepr(f.repr))
    case Str(t) => AllScalar(t)
    case Arr(vs) => forall i :: 0 <= i < |vs| ==> IJson(vs[i])
    case Obj(ms) => DistinctKeys(ms) && forall i :: 0 <= i < |ms| ==> AllScalar(ms[i].key) && IJson(ms[i].value)
    case Unsupported => false
  }

  predicate FloatFree(v: Json) {
    match v
    case Float(_) => false
    case Arr(vs) => forall i :: 0 <= i < |vs| ==> FloatFree(vs[i])
    case Obj(ms) => forall i :: 0 <= i < |ms| ==> FloatFree(ms[i].value)
    case _ => true
  }

  // Member order

  predicate Before(a: Text, b: Text) {
    LexLess(Utf16Be(a), Utf16Be(b))
  }

  /** Members in strictly increasing order of their UTF-16BE keys. */
  predicate Ordered(ms: seq<Member>) {
    forall i, j :: 0 <= i < j < |ms| ==> Before(ms[i].key, ms[j].key)
  }

  predicate ScalarKeys(ms: seq<Member>) {
    forall i :: 0 <= i < |ms| ==> AllScalar(ms[i].key)
  }

  function Insert(m: Member, ms: seq<Member>): (r: seq<Member>)
    ensures multiset(r) == multiset(ms) + multiset{m}
  {
    if ms == [] || Before(m.key, ms[0].key) then [m] + ms
    else
      assert ms == [ms[0]] + ms[1..];
      [ms[0]] + Insert(m, ms[1..])
  }

  function Sort(ms: seq<Member>): (r: seq<Member>)
    ensures multiset(r) == multiset(ms)
  {
    if ms == [] then []
    else
      assert ms == ms[..|ms| - 1] + [ms[|ms| - 1]];
      Insert(ms[|ms| - 1], Sort(ms[..|ms| - 1]))
  }

  lemma KeysAreOrdered(a: Text, b: Text)
    requires AllScalar(a) && AllScalar(b) && a != b && !Before(a, b)
    ensures Before(b, a)
  {
    LexTotal(Utf16Be(a), Utf16Be(b));
    if Utf16Be(a) == Utf16Be(b) {
      BigEndianInjective(Utf16(a), Utf16(b));
      Utf16Injective(a, b);
    }
  }

  lemma {:induction false} InsertOrders(m: Member, ms: seq<Member>)
    requires Ordered(ms) && ScalarKeys(ms) && AllScalar(m.key)
    requires forall i :: 0 <= i < |ms| ==> ms[i].key != m.key
    ensures Ordered(Insert(m, ms))
  {
    if ms == [] {
    } else if Before(m.key, ms[0].key) {
      forall j | 0 <= j < |ms| ensures Before(m.key, ms[j].key) {
        if j > 0 {
          LexTransitive(Utf16Be(m.key), Utf16Be(ms[0].key), Utf16Be(ms[j].key));
        }
      }
    } else {
      var tail := Insert(m, ms[1..]);
      InsertOrders(m, ms[1..]);
      KeysAreOrdered(m.key, ms[0].key);
      forall x | x in tail ensures Before(ms[0].key, x.key) {
        assert x in multiset(tail);
        assert x == m || x in ms[1..];
      }
    }
  }

  /** Distinct keys end up strictly increasing. */
  lemma {:induction false} SortOrders(ms: seq<Member>)
    requires DistinctKeys(ms) && ScalarKeys(ms)
    ensures Ordered(Sort(ms))
  {
    if ms != [] {
      var init, last := ms[..|ms| - 1], ms[|ms| - 1];
      SortOrders(init);
      SortKeepsMembers(init);
      forall i | 0 <= i < |Sort(init)| ensures Sort(init)[i].key != last.key && AllScalar(Sort(init)[i].key) {
        assert Sort(init)[i] in Sort(init);
        var j :| 0 <= j < |init| && init[j] == Sort(init)[i];
        assert ms[j] == init[j];
      }
      InsertOrders(last, Sort(init));
    }
  }

  /** The order of members is that of their keys as UTF-16 code units. */
  lemma OrderedByCodeUnits(ms: seq<Member>)
    requires DistinctKeys(ms) && ScalarKeys(ms)
    ensures |Sort(ms)| == |ms|
    ensures forall i, j :: 0 <= i < j < |ms| ==> LexLess(Utf16(Sort(ms)[i].key), Utf16(Sort(ms)[j].key))
  {
    SortOrders(ms);
    SortKeepsMembers(ms);
    forall i, j | 0 <= i < j < |ms| ensures LexLess(Utf16(Sort(ms)[i].key), Utf16(Sort(ms)[j].key)) {
      ByteOrderIsUnitOrder(Utf16(Sort(ms)[i].key), Utf16(Sort(ms)[j].key));
    }
  }

  lemma SortKeepsMembers(ms: seq<Member>)
    ensures |Sort(ms)| == |ms|
    ensures forall m :: m in Sort(ms) <==> m in ms
  {
    assert |multiset(Sort(ms))| == |multiset(ms)|;
    forall m ensures m in Sort(ms) <==> m in ms {
      assert m in Sort(ms) <==> m in multiset(Sort(ms));
      assert m in ms <==> m in multiset(ms);
    }
  }

  // Printing

  function HexDigit(d: int): char
    requires 0 <= d < 16
  {
    if d < 10 then ('0' as int + d) as char else ('a' as int + d - 10) as char
  }

  function Escape(c: CodePoint): string
    requires Scalar(c)
  {
    if c == 0x22 then "\\\""
    else if c == 0x5C then "\\\\"
    else if c == 0x08 then "\\b"
    else if c == 0x0C then "\\f"
    else if c == 0x0A then "\\n"
    else if c == 0x0D then "\\r"
    else if c == 0x09 then "\\t"
    else if c < 0x20 then "\\u00" + [HexDigit(c / 16), HexDigit(c % 16)]
    else [Char(c)]
  }

  function EscapeAll(t: Text): string
    requires AllScalar(t)
  {
    if t == [] then "" else Escape(t[0]) + EscapeAll(t[1..])
  }

  function Quote(t: Text): string
    requires AllScalar(t)
  {
    "\"" + EscapeAll(t) + "\""
  }

  function Print(v: Json): string
    requires IJson(v)
    decreases v, 1
  {
    match v
    case Null => "null"
    case Bool(b) => if b then "true" else "false"
    case Int(n) => IntText(n)
    case Float(f) => FloatText.CanonicalFloat(f).value
    case Str(t) => Quote(t)
    case Arr(vs) => "[" + PrintItems(vs, v) + "]"
    case Obj(ms) =>
      SortKeepsMembers(ms);
      "{" + PrintMembers(Sort(ms), v) + "}"
  }

  function PrintItems(vs: seq<Json>, ghost context: Json): string
    requires forall i :: 0 <= i < |vs| ==> vs[i] < context && IJson(vs[i])
    decreases context, 0, |vs|
  {
    if vs == [] then ""
    else if |vs| == 1 then Print(vs[0])
    else Print(vs[0]) + "," + PrintItems(vs[1..], context)
  }

  function PrintMembers(ms: seq<Member>, ghost context: Json): string
    requires forall m :: m in ms ==> m.value < context && AllScalar(m.key) && IJson(m.value)
    decreases context, 0, |ms|
  {
    if ms == [] then ""
    else
      var first := Quote(ms[0].key) + ":" + Print(ms[0].value);
      if |ms| == 1 then first else first + "," + PrintMembers(ms[1..], context)
  }

  /** The canonical text, refused exactly for values outside I-JSON. */
  function CanonicalText(v: Json): Option<string> {
    if IJson(v) then Some(Print(v)) else None
  }

  // Reading

  function HexValue(c: char): Option<int> {
    if '0' <= c <= '9' then Some(c as int - '0' as int)
    else if 'a' <= c <= 'f' then Some(c as int - 'a' as int + 10)
    else None
  }

  /** One character of a string body, and what follows it. */
  function ReadChar(s: string): (r: Option<(CodePoint, string)>)
    ensures r.Some? ==> |r.value.1| < |s|
  {
    if s == [] then None
    else if s[0] != '\\' then
      if s[0] as int < 0x20 || s[0] == '"' then None else Some((s[0] as int, s[1..]))
    else if |s| < 2 then None
    else if s[1] == '"' then Some((0x22, s[2..]))
    else if s[1] == '\\' then Some((0x5C, s[2..]))
    else if s[1] == 'b' then Some((0x08, s[2..]))
    else if s[1] == 'f' then Some((0x0C, s[2..]))
    else if s[1] == 'n' then Some((0x0A, s[2..]))
    else if s[1] == 'r' then Some((0x0D, s[2..]))
    else if s[1] == 't' then Some((0x09, s[2..]))
    else if s[1] == 'u' && |s| >= 6 then
      match (HexValue(s[2]), HexValue(s[3]), HexValue(s[4]), HexValue(s[5]))
      case (Some(a), Some(b), Some(c), Some(d)) => Some((((a * 16 + b) * 16 + c) * 16 + d, s[6..]))
      case _ => None
    else None
  }

  /** A string body up to and including its closing quote. */
  function ReadBody(s: string): (r: Option<(Text, string)>)
    ensures r.Some? ==> |r.value.1| < |s|
  {
    if s != [] && s[0] == '"' then Some(([], s[1..]))
    else
      match ReadChar(s)
      case None => None
      case Some((c, rest)) =>
        match ReadBody(rest)
        case None => None
        case Some((t, after)) => Some(([c] + t, after))
  }

  function ReadString(s: string): (r: Option<(Text, string)>)
    ensures r.Some? ==> |r.value.1| < |s|
  {
    if s != [] && s[0] == '"' then ReadBody(s[1..]) else None
  }

  function ReadDigits(s: string): (r: Option<(nat, string)>)
    ensures r.Some? ==> |r.value.1| < |s|
  {
    var n := DigitRun(s);
    if n == 0 then None else Some((ReadNat(s[..n]), s[n..]))
  }

  function ReadInteger(s: string): (r: Option<(Json, string)>)
    ensures r.Some? ==> |r.value.1| < |s|
  {
    if s != [] && s[0] == '-' then
      match ReadDigits(s[1..])
      case Some((n, rest)) => Some((Int(0 - n), rest))
      case None => None
    else
      match ReadDigits(s)
      case Some((n, rest)) => Some((Int(n), rest))
      case None => None
  }

  function ReadValue(s: string): (r: Option<(Json, string)>)
    ensures r.Some? ==> |r.value.1| < |s|
    decreases |s|, 0
  {
    if s == [] then None
    else if s[0] == 'n' then if "null" <= s then Some((Null, s[4..])) else None
    else if s[0] == 't' then if "true" <= s then Some((Bool(true), s[4..])) else None
    else if s[0] == 'f' then if "false" <= s then Some((Bool(false), s[5..])) else None
    else if s[0] == '"' then
      match ReadString(s)
      case Some((t, rest)) => Some((Str(t), rest))
      case None => None
    else if s[0] == '[' then
      if |s| > 1 && s[1] == ']' then Some((Arr([]), s[2..]))
      else
        match ReadItems(s[1..])
        case Some((vs, rest)) => Some((Arr(vs), rest))
        case None => None
    else if s[0] == '{' then
      if |s| > 1 && s[1] == '}' then Some((Obj([]), s[2..]))
      else
        match ReadMembers(s[1..])
        case Some((ms, rest)) => Some((Obj(ms), rest))
        case None => None
    else ReadInteger(s)
  }

  /** One or more items up to the closing bracket. */
  function ReadItems(s: string): (r: Option<(seq<Json>, string)>)
    ensures r.Some? ==> |r.value.1| < |s|
    decreases |s|, 1
  {
    match ReadValue(s)
    case None => None
    case Some((v, rest)) =>
      if rest != [] && rest[0] == ']' then Some(([v], rest[1..]))
      else if rest != [] && rest[0] == ',' then
        match ReadItems(rest[1..])
        case Some((vs, after)) => Some(([v] + vs, after))
        case None => None
      else None
  }

  function ReadMember(s: string): (r: Option<(Member, string)>)
    ensures r.Some? ==> |r.value.1| < |s|
    decreases |s|, 1
  {
    match ReadString(s)
    case None => None
    case Some((k, rest)) =>
      if rest == [] || rest[0] != ':' then None
      else
        match ReadValue(rest[1..])
        case Some((v, after)) => Some((Member(k, v), after))
        case None => None
  }

  /** One or more members up to the closing brace. */
  function ReadMembers(s: string): (r: Option<(seq<Member>, string)>)
    ensures r.Some? ==> |r.value.1| < |s|
    decreases |s|, 2
  {
    match ReadMember(s)
    case None => None
    case Some((m, rest)) =>
      if rest != [] && rest[0] == '}' then Some(([m], rest[1..]))
      else if rest != [] && rest[0] == ',' then
        match ReadMembers(rest[1..])
        case Some((ms, after)) => Some(([m] + ms, after))
        case None => None
      else None
  }

  function Read(s: string): Option<Json> {
    match ReadValue(s)
    case Some((v, rest)) => if rest == [] then Some(v) else None
    case None => None
  }

  /** The value with every mapping in canonical member order. */
  function Normal(v: Json): Json
    decreases v, 1
  {
    match v
    case Arr(vs) => Arr(NormalItems(vs, v))
    case Obj(ms) =>
      SortKeepsMembers(ms);
      Obj(NormalMembers(Sort(ms), v))
    case _ => v
  }

  function NormalItems(vs: seq<Json>, ghost context: Json): (r: seq<Json>)
    requires forall i :: 0 <= i < |vs| ==> vs[i] < context
    ensures |r| == |vs| && forall i :: 0 <= i < |vs| ==> r[i] == Normal(vs[i])
    decreases context, 0, |vs|
  {
    if vs == [] then [] else [Normal(vs[0])] + NormalItems(vs[1..], context)
  }

  function NormalMembers(ms: seq<Member>, ghost context: Json): (r: seq<Member>)
    requires forall m :: m in ms ==> m.value < context
    ensures |r| == |ms| && forall i :: 0 <= i < |ms| ==> r[i] == Member(ms[i].key, Normal(ms[i].value))
    decreases context, 0, |ms|
  {
    if ms == [] then []
    else [Member(ms[0].key, Normal(ms[0].value))] + NormalMembers(ms[1..], context)
  }

  // Reading back what was printed

  lemma ReadEscape(c: CodePoint, rest: string)
    requires Scalar(c)
    ensures ReadChar(Escape(c) + rest) == Some((c, rest))
    ensures Escape(c) != [] && Escape(c)[0] != '"'
  {
    var s := Escape(c) + rest;
    if c >= 0x20 && c != 0x22 && c != 0x5C {
      assert s[1..] == rest;
    } else if c in {0x22, 0x5C, 0x08, 0x0C, 0x0A, 0x0D, 0x09} {
      assert s[2..] == rest;
    } else {
      assert s[6..] == rest;
      assert c == 16 * (c / 16) + c % 16;
    }
  }

  lemma {:induction false} ReadEscapeAll(t: Text, rest: string)
    requires AllScalar(t)
    ensures ReadBody(EscapeAll(t) + "\"" + rest) == Some((t, rest))
  {
    hide ReadChar, Escape;
    var s := EscapeAll(t) + "\"" + rest;
    if t == [] {
      assert s[1..] == rest;
    } else {
      var tail := EscapeAll(t[1..]) + "\"" + rest;
      assert s == Escape(t[0]) + tail;
      ReadEscape(t[0], tail);
      ReadEscapeAll(t[1..], rest);
      assert [t[0]] + t[1..] == t;
    }
  }

  lemma ReadQuote(t: Text, rest: string)
    requires AllScalar(t)
    ensures ReadString(Quote(t) + rest) == Some((t, rest))
    ensures Quote(t)[0] == '"'
  {
    hide ReadBody, EscapeAll;
    assert (Quote(t) + rest)[1..] == EscapeAll(t) + "\"" + rest;
    ReadEscapeAll(t, rest);
  }

  /** Text after a value can only be the end or a delimiter. */
  predicate Delimited(rest: string) {
    rest == [] || rest[0] in {',', ']', '}'}
  }

  lemma ReadDigitsBack(digits: string, rest: string)
    requires digits != [] && AllDigits(digits) && Delimited(rest)
    ensures ReadDigits(digits + rest) == Some((ReadNat(digits), rest))
  {
    DigitRunIs(digits, rest);
    hide ReadNat, DigitRun, AllDigits;
    assert (digits + rest)[..|digits|] == digits && (digits + rest)[|digits|..] == rest;
  }

  lemma ReadIntBack(n: int, rest: string)
    requires Delimited(rest)
    ensures ReadInteger(IntText(n) + rest) == Some((Int(n), rest))
    ensures IntText(n)[0] == '-' || IsDigit(IntText(n)[0])
  {
    hide NatText, ReadNat, DigitRun, ReadDigits, Delimited;
    var digits := NatText(if n < 0 then -n else n);
    ReadNatText(if n < 0 then -n else n);
    ReadDigitsBack(digits, rest);
    if n < 0 {
      assert IntText(n) + rest == ['-'] + (digits + rest);
    } else {
      assert (digits + rest)[0] == digits[0];
    }
  }

  /** No canonical text starts like the end of a sequence, and each kind has its own first character. */
  lemma PrintStarts(v: Json)
    requires IJson(v) && FloatFree(v)
    ensures Print(v) != [] && Print(v)[0] !in {']', '}', ',', ':'}
  {
    hide PrintItems, PrintMembers, EscapeAll, NatText;
    if v.Int? {
      ReadIntBack(v.number, "");
    }
  }

  lemma ReadPrint(v: Json, rest: string)
    requires IJson(v) && FloatFree(v) && Delimited(rest)
    ensures ReadValue(Print(v) + rest) == Some((Normal(v), rest))
    decreases v, 1
  {
    match v
    case Null => ReadLiteral("null", rest);
    case Bool(b) => ReadLiteral(if b then "true" else "false", rest);
    case Int(n) =>
      ReadIntBack(n, rest);
      NumberIsNoLiteral(IntText(n), rest);
    case Str(t) =>
      ReadQuote(t, rest);
      StringOpens(Quote(t) + rest);
    case Arr(vs) => ReadPrintArr(v, rest);
    case Obj(ms) => ReadPrintObj(v, rest);
  }

  lemma Regroup(a: string, b: string, c: string, d: string)
    ensures a + b + c + d == a + (b + c + d)
  {
  }

  lemma ReadPrintArr(v: Json, rest: string)
    requires v.Arr? && IJson(v) && FloatFree(v) && Delimited(rest)
    ensures ReadValue(Print(v) + rest) == Some((Normal(v), rest))
    decreases v, 0
  {
    hide ReadValue, NormalItems, ReadItems, AllScalar, Utf16Be;
    var vs := v.items;
    if vs == [] {
      assert PrintItems(vs, v) == "";
      assert Print(v) + rest == "[]" + rest;
      EmptyReads(rest);
    } else {
      var body := PrintItems(vs, v) + "]" + rest;
      PrintStartsItems(vs, v);
      ReadPrintItems(vs, v, rest);
      Regroup("[", PrintItems(vs, v), "]", rest);
      assert body[0] == PrintItems(vs, v)[0];
      ArrayOpens(body);
    }
  }

  lemma ReadPrintObj(v: Json, rest: string)
    requires v.Obj? && IJson(v) && FloatFree(v) && Delimited(rest)
    ensures ReadValue(Print(v) + rest) == Some((Normal(v), rest))
    decreases v, 0
  {
    hide ReadValue, NormalMembers, ReadMembers, Sort, AllScalar, DistinctKeys;
    var ms := Sort(v.members);
    SortKeepsMembers(v.members);
    if ms == [] {
      assert Print(v) + rest == "{}" + rest;
      EmptyReads(rest);
    } else {
      var body := PrintMembers(ms, v) + "}" + rest;
      PrintStartsMembers(ms, v);
      ReadPrintMembers(ms, v, rest);
      Regroup("{", PrintMembers(ms, v), "}", rest);
      assert body[0] == PrintMembers(ms, v)[0];
      ObjectOpens(body);
    }
  }

  lemma EmptyReads(rest: string)
    ensures ReadValue("[]" + rest) == Some((Arr([]), rest))
    ensures ReadValue("{}" + rest) == Some((Obj([]), rest))
  {
    hide ReadItems, ReadMembers, ReadString, ReadInteger;
    assert ("[]" + rest)[2..] == rest && ("{}" + rest)[2..] == rest;
    assert ("[]" + rest)[0] == '[' && ("{}" + rest)[0] == '{';
  }

  lemma StringOpens(s: string)
    requires s != [] && s[0] == '"'
    ensures ReadValue(s) == match ReadString(s) case Some((t, rest)) => Some((Str(t), rest)) case None => None
  {
    hide ReadItems, ReadMembers, ReadString, ReadInteger;
  }

  lemma ArrayOpens(body: string)
    requires body != [] && body[0] != ']'
    ensures ReadValue("[" + body) == match ReadItems(body) case Some((vs, rest)) => Some((Arr(vs), rest)) case None => None
  {
    hide ReadItems, ReadMembers, ReadString, ReadInteger;
    var s := "[" + body;
    assert s[0] == '[' && s[1] == body[0] && s[1..] == body;
  }

  lemma ObjectOpens(body: string)
    requires body != [] && body[0] != '}'
    ensures ReadValue("{" + body) == match ReadMembers(body) case Some((ms, rest)) => Some((Obj(ms), rest)) case None => None
  {
    hide ReadItems, ReadMembers, ReadString, ReadInteger;
    var s := "{" + body;
    assert s[0] == '{' && s[1] == body[0] && s[1..] == body;
  }

  lemma ReadLiteral(word: string, rest: string)
    requires word in {"null", "true", "false"}
    ensures ReadValue(word + rest) == Some((if word == "null" then Null else Bool(word == "true"), rest))
  {
    hide ReadItems, ReadMembers, ReadString, ReadInteger;
    var s := word + rest;
    assert s[0] == word[0] && s[|word|..] == rest;
  }

  lemma NumberIsNoLiteral(number: string, rest: string)
    requires number != [] && (number[0] == '-' || IsDigit(number[0]))
    ensures ReadValue(number + rest) == ReadInteger(number + rest)
  {
    hide ReadInteger, ReadItems, ReadMembers, ReadString;
    var s := number + rest;
    assert s[0] == number[0];
  }

  lemma PrintStartsItems(vs: seq<Json>, context: Json)
    requires vs != [] && forall i :: 0 <= i < |vs| ==> vs[i] < context && IJson(vs[i]) && FloatFree(vs[i])
    ensures PrintItems(vs, context) != [] && PrintItems(vs, context)[0] != ']'
  {
    PrintStarts(vs[0]);
  }

  lemma PrintStartsMembers(ms: seq<Member>, context: Json)
    requires ms != [] && forall m :: m in ms ==> m.value < context && AllScalar(m.key) && IJson(m.value)
    ensures PrintMembers(ms, context) != [] && PrintMembers(ms, context)[0] == '"'
  {
  }

  lemma ReadPrintItems(vs: seq<Json>, context: Json, rest: string)
    requires vs != [] && forall i :: 0 <= i < |vs| ==> vs[i] < context && IJson(vs[i]) && FloatFree(vs[i])
    ensures ReadItems(PrintItems(vs, context) + "]" + rest) == Some((NormalItems(vs, context), rest))
    decreases context, 0, |vs|
  {
    hide Print, ReadValue, ReadItems, Normal, FloatFree, IJson;
    var first := Print(vs[0]);
    if |vs| == 1 {
      ReadPrint(vs[0], "]" + rest);
      LastItem(first, Normal(vs[0]), rest);
      assert NormalItems(vs, context) == [Normal(vs[0])];
    } else {
      var tail := PrintItems(vs[1..], context) + "]" + rest;
      ReadPrint(vs[0], "," + tail);
      ReadPrintItems(vs[1..], context, rest);
      NextItem(first, Normal(vs[0]), tail);
      RegroupTail(first, PrintItems(vs[1..], context), "]", rest);
    }
  }

  lemma LastItem(first: string, v: Json, rest: string)
    requires ReadValue(first + ("]" + rest)) == Some((v, "]" + rest))
    ensures ReadItems(first + "]" + rest) == Some(([v], rest))
  {
    hide ReadValue;
    assert first + "]" + rest == first + ("]" + rest);
    assert ("]" + rest)[1..] == rest;
  }

  lemma NextItem(first: string, v: Json, tail: string)
    requires ReadValue(first + ("," + tail)) == Some((v, "," + tail))
    requires ReadItems(tail).Some?
    ensures ReadItems(first + ("," + tail)) == Some(([v] + ReadItems(tail).value.0, ReadItems(tail).value.1))
  {
    hide ReadValue;
    assert ("," + tail)[1..] == tail;
  }

  lemma ReadPrintMember(m: Member, rest: string)
    requires AllScalar(m.key) && IJson(m.value) && FloatFree(m.value) && Delimited(rest)
    ensures ReadMember(Quote(m.key) + ":" + Print(m.value) + rest) == Some((Member(m.key, Normal(m.value)), rest))
    decreases m.value, 2
  {
    hide Print, ReadValue, Normal, Quote, ReadString, FloatFree, IJson;
    var s := Quote(m.key) + ":" + Print(m.value) + rest;
    var tail := ":" + (Print(m.value) + rest);
    assert s == Quote(m.key) + tail;
    ReadQuote(m.key, tail);
    assert tail[1..] == Print(m.value) + rest;
    ReadPrint(m.value, rest);
  }

  lemma ReadPrintMembers(ms: seq<Member>, context: Json, rest: string)
    requires ms != []
    requires forall m :: m in ms ==> m.value < context && AllScalar(m.key) && IJson(m.value) && FloatFree(m.value)
    ensures ReadMembers(PrintMembers(ms, context) + "}" + rest) == Some((NormalMembers(ms, context), rest))
    decreases context, 0, |ms|
  {
    hide Print, Normal, Quote, FloatFree, IJson, AllScalar, ReadMembers, ReadMember;
    assert ms[0] in ms;
    var first := Quote(ms[0].key) + ":" + Print(ms[0].value);
    var m := Member(ms[0].key, Normal(ms[0].value));
    if |ms| == 1 {
      ReadPrintMember(ms[0], "}" + rest);
      Regroup("", first, "}", rest);
      LastMember(first, m, rest);
      assert NormalMembers(ms, context) == [m];
    } else {
      var tail := PrintMembers(ms[1..], context) + "}" + rest;
      ReadPrintMember(ms[0], "," + tail);
      ReadPrintMembers(ms[1..], context, rest);
      NextMember(first, m, tail);
      RegroupTail(first, PrintMembers(ms[1..], context), "}", rest);
    }
  }

  lemma LastMember(first: string, m: Member, rest: string)
    requires ReadMember(first + ("}" + rest)) == Some((m, "}" + rest))
    ensures ReadMembers(first + "}" + rest) == Some(([m], rest))
  {
    hide ReadMember;
    assert first + "}" + rest == first + ("}" + rest);
    assert ("}" + rest)[1..] == rest;
  }

  lemma NextMember(first: string, m: Member, tail: string)
    requires ReadMember(first + ("," + tail)) == Some((m, "," + tail))
    requires ReadMembers(tail).Some?
    ensures ReadMembers(first + ("," + tail)) == Some(([m] + ReadMembers(tail).value.0, ReadMembers(tail).value.1))
  {
    hide ReadMember;
    assert ("," + tail)[1..] == tail;
  }

  lemma RegroupTail(first: string, body: string, close: string, rest: string)
    ensures first + "," + body + close + rest == first + ("," + (body + close + rest))
  {
  }
}
