/**
 Canonical text as tokens: whatever I-JSON value is printed, its text splits into exactly the tokens of that value, each
 number being the decimal that was printed.
 */
module CanonicalTokens {
  import opened Basics
  import opened Decimal
  import opened Utf
  import opened CanonicalJson
  import FloatText

  datatype Token = Mark(c: char) | Word(name: string) | Chars(text: Text) | Number(value: real)

  predicate IsMark(c: char) {
    c in {'[', ']', '{', '}', ',', ':'}
  }

  predicate IsNumeric(c: char) {
    IsDigit(c) || c == '-' || c == '+' || c == '.' || c == 'e'
  }

  predicate AllNumeric(s: string) {
    forall i :: 0 <= i < |s| ==> IsNumeric(s[i])
  }

  /** How many characters of a number `s` starts with. */
  function NumberRun(s: string): (n: nat)
    ensures n <= |s|
  {
    if s == [] || !IsNumeric(s[0]) then 0 else 1 + NumberRun(s[1..])
  }

  function Prepend(t: Token, ts: Option<seq<Token>>): Option<seq<Token>> {
    match ts case Some(more) => Some([t] + more) case None => None
  }

  /** The tokens of a text, by the grammar of JSON. */
  function Lex(s: string): Option<seq<Token>>
    decreases |s|
  {
    if s == [] then Some([])
    else if IsMark(s[0]) then Prepend(Mark(s[0]), Lex(s[1..]))
    else if "null" <= s then Prepend(Word("null"), Lex(s[4..]))
    else if "true" <= s then Prepend(Word("true"), Lex(s[4..]))
    else if "false" <= s then Prepend(Word("false"), Lex(s[5..]))
    else if s[0] == '"' then
      match ReadString(s)
      case Some((t, rest)) => Prepend(Chars(t), Lex(rest))
      case None => None
    else
      var n := NumberRun(s);
      if n == 0 then None
      else
        match FloatText.ReadNumber(s[..n])
        case Some(x) => Prepend(Number(x), Lex(s[n..]))
        case None => None
  }

  /** What a float is worth: the signed decimal its repr denotes. */
  function Worth(f: FloatText.Float): real
    requires !f.NonFinite? && (f.Finite? ==> FloatText.ValidRepr(f.repr))
  {
    if f.Zero? then 0.0 else if f.negative then -FloatText.Denoted(f.repr) else FloatText.Denoted(f.repr)
  }

  /** The tokens of a value: members in canonical order, numbers as decimals. */
  function Tokens(v: Json): seq<Token>
    requires IJson(v)
    decreases v, 1
  {
    match v
    case Null => [Word("null")]
    case Bool(b) => [Word(if b then "true" else "false")]
    case Int(n) => [Number(n as real)]
    case Float(f) => [Number(Worth(f))]
    case Str(t) => [Chars(t)]
    case Arr(vs) => [Mark('[')] + ItemTokens(vs, v) + [Mark(']')]
    case Obj(ms) =>
      SortKeepsMembers(ms);
      [Mark('{')] + MemberTokens(Sort(ms), v) + [Mark('}')]
  }

  function ItemTokens(vs: seq<Json>, ghost context: Json): seq<Token>
    requires forall i :: 0 <= i < |vs| ==> vs[i] < context && IJson(vs[i])
    decreases context, 0, |vs|
  {
    if vs == [] then []
    else if |vs| == 1 then Tokens(vs[0])
    else Tokens(vs[0]) + [Mark(',')] + ItemTokens(vs[1..], context)
  }

  function MemberTokens(ms: seq<Member>, ghost context: Json): seq<Token>
    requires forall m :: m in ms ==> m.value < context && AllScalar(m.key) && IJson(m.value)
    decreases context, 0, |ms|
  {
    if ms == [] then []
    else
      var first := [Chars(ms[0].key), Mark(':')] + Tokens(ms[0].value);
      if |ms| == 1 then first else first + [Mark(',')] + MemberTokens(ms[1..], context)
  }

  // Numbers

  lemma {:induction false} NumberRunIs(text: string, rest: string)
    requires AllNumeric(text) && Delimited(rest)
    ensures NumberRun(text + rest) == |text|
  {
    if text == [] {
      assert text + rest == rest;
    } else {
      NumberRunIs(text[1..], rest);
      assert (text + rest)[1..] == text[1..] + rest;
    }
  }

  lemma IntIsNumeric(n: int)
    ensures AllNumeric(IntText(n)) && IntText(n) != []
    ensures FloatText.ReadNumber(IntText(n)) == Some(n as real)
  {
    hide NatText, ReadNat, FloatText.ReadUnsigned, FloatText.ReadMantissa;
    var digits := NatText(if n < 0 then -n else n);
    FloatText.DigitsAreNot(digits, 'e');
    FloatText.ReadPlain(digits);
    FloatText.ReadWhole(digits, 0);
    ReadNatText(if n < 0 then -n else n);
    if n < 0 { assert IntText(n)[1..] == digits; }
  }

  lemma RenderIsNumeric(r: FloatText.Repr)
    requires FloatText.ValidRepr(r)
    ensures AllNumeric(FloatText.Render(r)) && FloatText.Render(r) != []
  {
    hide FloatText.Denoted, FloatText.Pow10, FloatText.StripZeros;
    match r
    case Positional(w, f) =>
    case Scientific(l, f, e) =>
      LayoutIsNumeric(FloatText.StripZeros([l] + f), e, FloatText.Pow10(-6) <= FloatText.Denoted(r) < FloatText.Pow10(21));
  }

  lemma LayoutIsNumeric(digits: string, exponent: int, plain: bool)
    requires digits != [] && AllDigits(digits)
    ensures AllNumeric(FloatText.RenderScientific(digits, exponent, plain))
    ensures FloatText.RenderScientific(digits, exponent, plain) != []
  {
    hide NatText;
    if !plain { IntIsNumeric(exponent); }
  }

  /** A printed float is one number token, worth its decimal. */
  lemma FloatIsNumeric(f: FloatText.Float)
    requires IJson(Float(f))
    ensures var text := Print(Float(f));
      AllNumeric(text) && text != [] && FloatText.ReadNumber(text) == Some(Worth(f))
  {
    hide FloatText.ReadNumber, FloatText.Render, FloatText.Denoted;
    FloatText.CanonicalFloatDenotes(f);
    if f.Finite? { RenderIsNumeric(f.repr); }
  }

  // Splitting

  lemma MarkLexes(c: char, rest: string)
    requires IsMark(c)
    ensures Lex([c] + rest) == Prepend(Mark(c), Lex(rest))
  {
    assert ([c] + rest)[1..] == rest;
  }

  lemma WordLexes(word: string, rest: string)
    requires word in {"null", "true", "false"}
    ensures Lex(word + rest) == Prepend(Word(word), Lex(rest))
  {
    hide ReadString, NumberRun, FloatText.ReadNumber;
    var s := word + rest;
    assert s[0] == word[0] && s[|word|..] == rest && word <= s;
  }

  lemma NumberLexes(text: string, x: real, rest: string)
    requires AllNumeric(text) && text != [] && FloatText.ReadNumber(text) == Some(x) && Delimited(rest)
    ensures Lex(text + rest) == Prepend(Number(x), Lex(rest))
  {
    hide ReadString, FloatText.ReadNumber, NumberRun;
    NumberRunIs(text, rest);
    var s := text + rest;
    assert s[0] == text[0] && s[..|text|] == text && s[|text|..] == rest;
  }

  lemma CharsLex(t: Text, rest: string)
    requires AllScalar(t)
    ensures Lex(Quote(t) + rest) == Prepend(Chars(t), Lex(rest))
  {
    hide ReadString, FloatText.ReadNumber, NumberRun, EscapeAll;
    ReadQuote(t, rest);
    assert (Quote(t) + rest)[0] == '"';
  }

  function Append(ts: seq<Token>, more: Option<seq<Token>>): Option<seq<Token>> {
    match more case Some(us) => Some(ts + us) case None => None
  }

  lemma AppendPrepends(t: Token, ts: seq<Token>, more: Option<seq<Token>>)
    ensures Prepend(t, Append(ts, more)) == Append([t] + ts, more)
    ensures Prepend(t, more) == Append([t], more)
  {
    if more.Some? { assert [t] + (ts + more.value) == [t] + ts + more.value; }
  }

  lemma AppendTwice(ts: seq<Token>, us: seq<Token>, more: Option<seq<Token>>)
    ensures Append(ts, Append(us, more)) == Append(ts + us, more)
  {
    if more.Some? { assert ts + (us + more.value) == ts + us + more.value; }
  }

  /** The text of a value splits into the tokens of the value: floats, integers, strings and structure alike, at every
      depth. */
  lemma {:induction false} LexPrint(v: Json, rest: string)
    requires IJson(v) && Delimited(rest)
    ensures Lex(Print(v) + rest) == Append(Tokens(v), Lex(rest))
    decreases v, 1
  {
    hide Lex, Append, Prepend;
    match v
    case Null =>
      WordLexes("null", rest);
      AppendPrepends(Word("null"), [], Lex(rest));
    case Bool(b) =>
      WordLexes(if b then "true" else "false", rest);
      AppendPrepends(Word(if b then "true" else "false"), [], Lex(rest));
    case Int(n) =>
      IntIsNumeric(n);
      NumberLexes(IntText(n), n as real, rest);
      AppendPrepends(Number(n as real), [], Lex(rest));
    case Float(f) =>
      FloatIsNumeric(f);
      NumberLexes(Print(v), Worth(f), rest);
      AppendPrepends(Number(Worth(f)), [], Lex(rest));
    case Str(t) =>
      CharsLex(t, rest);
      AppendPrepends(Chars(t), [], Lex(rest));
    case Arr(vs) => LexPrintArr(v, rest);
    case Obj(ms) => LexPrintObj(v, rest);
  }

  lemma {:induction false} LexPrintArr(v: Json, rest: string)
    requires v.Arr? && IJson(v) && Delimited(rest)
    ensures Lex(Print(v) + rest) == Append(Tokens(v), Lex(rest))
    decreases v, 0
  {
    hide Lex, Append, Prepend, PrintItems, ItemTokens;
    var body, ts := PrintItems(v.items, v), ItemTokens(v.items, v);
    assert Print(v) + rest == ['['] + (body + ("]" + rest));
    MarkLexes('[', body + ("]" + rest));
    LexPrintItems(v.items, v, "]" + rest);
    Enclosed('[', ts, ']', rest);
  }

  /** Opening mark, body and closing mark. */
  lemma Enclosed(open: char, ts: seq<Token>, close: char, rest: string)
    requires IsMark(close)
    ensures Prepend(Mark(open), Append(ts, Lex([close] + rest))) == Append([Mark(open)] + ts + [Mark(close)], Lex(rest))
  {
    hide Lex, Append, Prepend;
    var more := Lex(rest);
    MarkLexes(close, rest);
    AppendPrepends(Mark(close), [], more);
    AppendTwice(ts, [Mark(close)], more);
    AppendPrepends(Mark(open), ts + [Mark(close)], more);
    assert [Mark(open)] + (ts + [Mark(close)]) == [Mark(open)] + ts + [Mark(close)];
  }

  lemma {:induction false} LexPrintItems(vs: seq<Json>, context: Json, rest: string)
    requires forall i :: 0 <= i < |vs| ==> vs[i] < context && IJson(vs[i])
    requires Delimited(rest)
    ensures Lex(PrintItems(vs, context) + rest) == Append(ItemTokens(vs, context), Lex(rest))
    decreases context, 0, |vs|
  {
    hide Lex, Print, Tokens, IJson;
    if vs == [] {
      assert PrintItems(vs, context) + rest == rest;
      NothingAppended(Lex(rest));
    } else if |vs| == 1 {
      LexPrint(vs[0], rest);
    } else {
      var body, ts := PrintItems(vs[1..], context), ItemTokens(vs[1..], context);
      assert PrintItems(vs, context) + rest == Print(vs[0]) + ([','] + (body + rest));
      LexPrint(vs[0], [','] + (body + rest));
      LexPrintItems(vs[1..], context, rest);
      Listed(Tokens(vs[0]), ts, body + rest, Lex(rest));
    }
  }

  lemma NothingAppended(more: Option<seq<Token>>)
    ensures Append([], more) == more
  {
    if more.Some? { assert [] + more.value == more.value; }
  }

  /** A comma between what comes first and what follows. */
  lemma Listed(first: seq<Token>, ts: seq<Token>, tail: string, more: Option<seq<Token>>)
    requires Lex(tail) == Append(ts, more)
    ensures Append(first, Lex([','] + tail)) == Append(first + [Mark(',')] + ts, more)
  {
    hide Lex, Append, Prepend;
    MarkLexes(',', tail);
    AppendPrepends(Mark(','), ts, more);
    AppendTwice(first, [Mark(',')] + ts, more);
    assert first + ([Mark(',')] + ts) == first + [Mark(',')] + ts;
  }

  lemma {:induction false} LexPrintObj(v: Json, rest: string)
    requires v.Obj? && IJson(v) && Delimited(rest)
    ensures Lex(Print(v) + rest) == Append(Tokens(v), Lex(rest))
    decreases v, 0
  {
    hide Lex, Append, Prepend, PrintMembers, MemberTokens, Sort, DistinctKeys, AllScalar;
    SortKeepsMembers(v.members);
    var ms := Sort(v.members);
    var body, ts := PrintMembers(ms, v), MemberTokens(ms, v);
    assert Print(v) + rest == ['{'] + (body + ("}" + rest));
    MarkLexes('{', body + ("}" + rest));
    LexPrintMembers(ms, v, "}" + rest);
    Enclosed('{', ts, '}', rest);
  }

  lemma {:induction false} LexPrintMembers(ms: seq<Member>, context: Json, rest: string)
    requires forall m :: m in ms ==> m.value < context && AllScalar(m.key) && IJson(m.value)
    requires Delimited(rest)
    ensures Lex(PrintMembers(ms, context) + rest) == Append(MemberTokens(ms, context), Lex(rest))
    decreases context, 0, |ms|
  {
    hide Lex, Print, Tokens, IJson, Quote, AllScalar;
    if ms == [] {
      assert PrintMembers(ms, context) + rest == rest;
      NothingAppended(Lex(rest));
    } else {
      assert ms[0] in ms;
      var first := [Chars(ms[0].key), Mark(':')] + Tokens(ms[0].value);
      var text := Quote(ms[0].key) + ":" + Print(ms[0].value);
      if |ms| == 1 {
        LexPrintMember(ms[0], rest);
      } else {
        var body, ts := PrintMembers(ms[1..], context), MemberTokens(ms[1..], context);
        assert PrintMembers(ms, context) + rest == text + ([','] + (body + rest));
        LexPrintMember(ms[0], [','] + (body + rest));
        LexPrintMembers(ms[1..], context, rest);
        Listed(first, ts, body + rest, Lex(rest));
      }
    }
  }

  lemma {:induction false} LexPrintMember(m: Member, rest: string)
    requires AllScalar(m.key) && IJson(m.value) && Delimited(rest)
    ensures Lex(Quote(m.key) + ":" + Print(m.value) + rest)
      == Append([Chars(m.key), Mark(':')] + Tokens(m.value), Lex(rest))
    decreases m.value, 2
  {
    hide Lex, Append, Prepend, Print, Tokens, IJson, Quote, AllScalar;
    var tail := Print(m.value) + rest;
    assert Quote(m.key) + ":" + Print(m.value) + rest == Quote(m.key) + ([':'] + tail);
    CharsLex(m.key, [':'] + tail);
    MarkLexes(':', tail);
    LexPrint(m.value, rest);
    AppendPrepends(Mark(':'), Tokens(m.value), Lex(rest));
    AppendPrepends(Chars(m.key), [Mark(':')] + Tokens(m.value), Lex(rest));
    assert [Chars(m.key)] + ([Mark(':')] + Tokens(m.value)) == [Chars(m.key), Mark(':')] + Tokens(m.value);
  }

  /** A whole canonical text. */
  lemma CanonicalTextDenotes(v: Json)
    requires IJson(v)
    ensures CanonicalText(v).Some? && Lex(CanonicalText(v).value) == Some(Tokens(v))
  {
    hide Lex, Print, Tokens, IJson;
    LexPrint(v, "");
    assert Print(v) + "" == Print(v);
    EmptyLexes();
    assert Tokens(v) + [] == Tokens(v);
  }

  lemma EmptyLexes()
    ensures Lex("") == Some([])
  {
  }
}
