/**
  JSON as the two services read it: the tokens of a document, the flat objects and arrays those tokens
  can form, and the text of a token list. An array or object inside another is one Compound token.
 */
module Json {
  import opened Wrappers
  import opened Decimal

  datatype Tok =
    | LBrace | RBrace | LBracket | RBracket | Colon | Comma
    | Str(text: string)
    | Num(n: int)        // an integer literal other than -0
    | NegZero            // the literal -0
    | Fraction           // a literal with a fraction or an exponent
    | True | False | Null
    | Compound
    | Bad                // text that is no JSON token

  predicate IsValue(t: Tok) {
    t.Str? || t.Num? || t.NegZero? || t.Fraction? || t.True? || t.False? || t.Null? || t.Compound?
  }

  datatype Member = Member(key: string, value: Tok)

  // ----------------------------------------------------------------------------------------------
  // Grammar of one flat object
  // ----------------------------------------------------------------------------------------------

  /** The members of the object whose closing brace ends ts. The first member has no comma before it. */
  function Rest(ts: seq<Tok>, first: bool): Option<seq<Member>> {
    if ts == [] then None
    else if ts[0] == RBrace then (if |ts| == 1 then Some([]) else None)
    else if !first && ts[0] != Comma then None
    else
      var body := if first then ts else ts[1..];
      if |body| < 3 || !body[0].Str? || body[1] != Colon || !IsValue(body[2]) then None
      else match Rest(body[3..], false)
        case None => None
        case Some(ms) => Some([Member(body[0].text, body[2])] + ms)
  }

  /** The members of a document that is exactly one flat object. */
  function Members(toks: seq<Tok>): Option<seq<Member>> {
    if toks == [] || toks[0] != LBrace then None else Rest(toks[1..], true)
  }

  function Pairs(ms: seq<Member>, first: bool): seq<Tok> {
    if ms == [] then [RBrace]
    else (if first then [] else [Comma]) + [Str(ms[0].key), Colon, ms[0].value] + Pairs(ms[1..], false)
  }

  /** The one token list that spells a given list of members. */
  function Render(ms: seq<Member>): seq<Tok> {
    [LBrace] + Pairs(ms, true)
  }

  ghost predicate ValueMembers(ms: seq<Member>) {
    forall i :: 0 <= i < |ms| ==> IsValue(ms[i].value)
  }

  /** Reading a member that is followed by a readable rest. */
  lemma RestTakes(m: Member, tail: seq<Tok>, first: bool)
    requires IsValue(m.value) && Rest(tail, false).Some?
    ensures Rest((if first then [] else [Comma]) + [Str(m.key), Colon, m.value] + tail, first) ==
            Some([m] + Rest(tail, false).value)
  {
    var body := [Str(m.key), Colon, m.value] + tail;
    var ts := (if first then [] else [Comma]) + [Str(m.key), Colon, m.value] + tail;
    assert body == if first then ts else ts[1..];
    assert body[3..] == tail;
  }

  lemma {:induction false} RestOfPairs(ms: seq<Member>, first: bool)
    requires ValueMembers(ms)
    ensures Rest(Pairs(ms, first), first) == Some(ms)
  {
    if ms == [] {
    } else {
      hide Rest;
      RestOfPairs(ms[1..], false);
      RestTakes(ms[0], Pairs(ms[1..], false), first);
      assert ms == [ms[0]] + ms[1..];
    }
  }

  lemma {:induction false} PairsOfRest(ts: seq<Tok>, first: bool)
    requires Rest(ts, first).Some?
    ensures ValueMembers(Rest(ts, first).value)
    ensures Pairs(Rest(ts, first).value, first) == ts
    decreases |ts|
  {
    if ts[0] == RBrace {
    } else {
      var body := if first then ts else ts[1..];
      PairsOfRest(body[3..], false);
      var tail := Rest(body[3..], false).value;
      var ms := Rest(ts, first).value;
      assert ms == [Member(body[0].text, body[2])] + tail;
      assert ms[1..] == tail;
      assert body == body[..3] + body[3..];
      assert body[..3] == [body[0], body[1], body[2]];
    }
  }

  /** Reading and rendering are inverse: a document is accepted exactly when it renders its members. */
  lemma MembersIffRender(toks: seq<Tok>, ms: seq<Member>)
    ensures Members(toks) == Some(ms) <==> ValueMembers(ms) && toks == Render(ms)
  {
    if Members(toks) == Some(ms) {
      PairsOfRest(toks[1..], true);
      assert toks == [toks[0]] + toks[1..];
    }
    if ValueMembers(ms) && toks == Render(ms) {
      RestOfPairs(ms, true);
      assert toks[1..] == Pairs(ms, true);
    }
  }

  // ----------------------------------------------------------------------------------------------
  // Grammar of one flat array
  // ----------------------------------------------------------------------------------------------

  /** The elements of the array whose closing bracket ends ts. The first element has no comma before it. */
  function RestOfRow(ts: seq<Tok>, first: bool): Option<seq<Tok>> {
    if ts == [] then None
    else if ts[0] == RBracket then (if |ts| == 1 then Some([]) else None)
    else if !first && ts[0] != Comma then None
    else
      var body := if first then ts else ts[1..];
      if body == [] || !IsValue(body[0]) then None
      else match RestOfRow(body[1..], false)
        case None => None
        case Some(vs) => Some([body[0]] + vs)
  }

  /** The elements of a document that is exactly one flat array. */
  function Elements(toks: seq<Tok>): Option<seq<Tok>> {
    if toks == [] || toks[0] != LBracket then None else RestOfRow(toks[1..], true)
  }

  function Items(vs: seq<Tok>, first: bool): seq<Tok> {
    if vs == [] then [RBracket]
    else (if first then [] else [Comma]) + [vs[0]] + Items(vs[1..], false)
  }

  /** The one token list that spells a given list of elements. */
  function RenderRow(vs: seq<Tok>): seq<Tok> {
    [LBracket] + Items(vs, true)
  }

  ghost predicate AllValues(vs: seq<Tok>) { forall i :: 0 <= i < |vs| ==> IsValue(vs[i]) }

  lemma RowTakes(v: Tok, tail: seq<Tok>, first: bool)
    requires IsValue(v) && RestOfRow(tail, false).Some?
    ensures RestOfRow((if first then [] else [Comma]) + [v] + tail, first) == Some([v] + RestOfRow(tail, false).value)
  {
    var ts := (if first then [] else [Comma]) + [v] + tail;
    var body := [v] + tail;
    assert body == if first then ts else ts[1..];
    assert body[1..] == tail;
  }

  lemma {:induction false} RowOfItems(vs: seq<Tok>, first: bool)
    requires AllValues(vs)
    ensures RestOfRow(Items(vs, first), first) == Some(vs)
  {
    if vs == [] {
    } else {
      hide RestOfRow;
      RowOfItems(vs[1..], false);
      RowTakes(vs[0], Items(vs[1..], false), first);
      assert vs == [vs[0]] + vs[1..];
    }
  }

  lemma {:induction false} ItemsOfRow(ts: seq<Tok>, first: bool)
    requires RestOfRow(ts, first).Some?
    ensures AllValues(RestOfRow(ts, first).value)
    ensures Items(RestOfRow(ts, first).value, first) == ts
    decreases |ts|
  {
    if ts[0] == RBracket {
    } else {
      var body := if first then ts else ts[1..];
      ItemsOfRow(body[1..], false);
      var vs, tail := RestOfRow(ts, first).value, RestOfRow(body[1..], false).value;
      assert vs == [body[0]] + tail;
      assert vs[1..] == tail;
    }
  }

  /** Reading and rendering an array are inverse. */
  lemma ElementsIffRender(toks: seq<Tok>, vs: seq<Tok>)
    ensures Elements(toks) == Some(vs) <==> AllValues(vs) && toks == RenderRow(vs)
  {
    if Elements(toks) == Some(vs) {
      ItemsOfRow(toks[1..], true);
      assert toks == [toks[0]] + toks[1..];
    }
    if AllValues(vs) && toks == RenderRow(vs) {
      RowOfItems(vs, true);
      assert toks[1..] == Items(vs, true);
    }
  }

  // ----------------------------------------------------------------------------------------------
  // Text
  // ----------------------------------------------------------------------------------------------

  /** Insignificant whitespace, section 2 of RFC 8259. */
  predicate IsSpace(c: char) { c == ' ' || c == '\t' || c == '\n' || c == '\r' }

  /** A character that stands for itself between quotes. */
  predicate IsPlain(c: char) { c != '"' && c != '\\' && ' ' <= c }

  ghost predicate AllPlain(s: string) { forall i :: 0 <= i < |s| ==> IsPlain(s[i]) }

  predicate IsNumeric(t: Tok) { t.Num? || t.NegZero? }

  predicate IsNumberChar(c: char) { IsDigit(c) || c == '.' || c == 'e' || c == 'E' }

  function PlainSpan(s: string): (k: nat)
    ensures k <= |s| && AllPlain(s[..k])
    ensures k < |s| ==> !IsPlain(s[k])
  {
    if s == [] || !IsPlain(s[0]) then 0
    else
      var k := PlainSpan(s[1..]);
      assert s[..k + 1] == [s[0]] + s[1..][..k];
      k + 1
  }

  /** One number at the front of s: the token and how many characters it takes. */
  function LexNumber(s: string): (r: (Tok, nat))
    requires s != []
    ensures r.0 != Bad ==> IsNumeric(r.0) && 0 < r.1 <= |s|
  {
    var sign := if s[0] == '-' then 1 else 0;
    var k := DigitSpan(s[sign..]);
    if k == 0 || (k > 1 && s[sign] == '0') || (sign + k < |s| && IsNumberChar(s[sign + k])) then (Bad, 0)
    else
      var v := Value(s[sign..][..k]);
      var n: int := v;
      (if sign == 0 then Num(n) else if n == 0 then NegZero else Num(-n), sign + k)
  }

  /**
    The tokens of a text. Escapes, nested values, fractions and exponents are outside this lexer
    and come out as Bad, which ends the list.
   */
  function Lex(s: string): seq<Tok>
    decreases |s|
  {
    if s == [] then []
    else if IsSpace(s[0]) then Lex(s[1..])
    else if s[0] == '{' then [LBrace] + Lex(s[1..])
    else if s[0] == '}' then [RBrace] + Lex(s[1..])
    else if s[0] == '[' then [LBracket] + Lex(s[1..])
    else if s[0] == ']' then [RBracket] + Lex(s[1..])
    else if s[0] == ':' then [Colon] + Lex(s[1..])
    else if s[0] == ',' then [Comma] + Lex(s[1..])
    else if s[0] == '"' then
      var k := PlainSpan(s[1..]);
      if 1 + k < |s| && s[1 + k] == '"' then [Str(s[1..][..k])] + Lex(s[k + 2..]) else [Bad]
    else if "true" <= s then [True] + Lex(s[4..])
    else if "false" <= s then [False] + Lex(s[5..])
    else if "null" <= s then [Null] + Lex(s[4..])
    else if s[0] == '-' || IsDigit(s[0]) then
      var (t, k) := LexNumber(s);
      if t == Bad then [Bad] else [t] + Lex(s[k..])
    else [Bad]
  }

  /** Tokens that have a text of their own in this lexer. */
  ghost predicate Spellable(t: Tok) {
    !t.Fraction? && !t.Compound? && !t.Bad? && (t.Str? ==> AllPlain(t.text))
  }

  function Spell(t: Tok): string {
    match t
    case LBrace => "{"
    case RBrace => "}"
    case LBracket => "["
    case RBracket => "]"
    case Colon => ":"
    case Comma => ","
    case Str(text) => "\"" + text + "\""
    case Num(n) => if n >= 0 then Digits(n) else "-" + Digits(-n)
    case NegZero => "-0"
    case True => "true"
    case False => "false"
    case Null => "null"
    case _ => "?"
  }

  /** The text of a token list with the given whitespace before each token and at the end. */
  function Spaced(toks: seq<Tok>, gaps: seq<string>): string
    requires |gaps| == |toks| + 1
  {
    if toks == [] then gaps[0] else gaps[0] + Spell(toks[0]) + Spaced(toks[1..], gaps[1..])
  }

  /** What follows an element of an object or an array, and ends a number. */
  predicate EndsValue(t: Tok) { t == Comma || t == RBrace || t == RBracket }

  /** Numbers need something after them that ends the number. */
  ghost predicate Lexable(toks: seq<Tok>) {
    && (forall i :: 0 <= i < |toks| ==> Spellable(toks[i]))
    && (forall i :: 0 <= i < |toks| - 1 && IsNumeric(toks[i]) ==> EndsValue(toks[i + 1]))
  }

  /** Spaces, tabs, line feeds and carriage returns. */
  ghost predicate AllSpace(s: string) {
    forall i :: 0 <= i < |s| ==> s[i] as int == 32 || s[i] as int == 9 || s[i] as int == 10 || s[i] as int == 13
  }

  lemma SpaceExactly(s: string)
    ensures AllSpace(s) <==> forall i :: 0 <= i < |s| ==> IsSpace(s[i])
  {
  }

  lemma LexAtSpace(s: string)
    requires s != [] && IsSpace(s[0])
    ensures Lex(s) == Lex(s[1..])
  {
  }

  lemma {:induction false} LexSpace(gap: string, rest: string)
    requires AllSpace(gap)
    ensures Lex(gap + rest) == Lex(rest)
  {
    if gap == [] {
      assert gap + rest == rest;
    } else {
      hide Lex, IsSpace;
      var s := gap + rest;
      assert s[0] == gap[0] && s[1..] == gap[1..] + rest;
      LexAtSpace(s);
      LexSpace(gap[1..], rest);
    }
  }

  lemma {:induction false} PlainSpanOf(text: string, rest: string)
    requires AllPlain(text)
    requires rest != [] && rest[0] == '"'
    ensures PlainSpan(text + rest) == |text|
  {
    if text == [] {
      assert text + rest == rest;
    } else {
      PlainSpanOf(text[1..], rest);
      assert (text + rest)[1..] == text[1..] + rest;
    }
  }

  lemma LexStr(text: string, rest: string)
    requires AllPlain(text)
    ensures Lex("\"" + text + "\"" + rest) == [Str(text)] + Lex(rest)
  {
    var s := "\"" + text + "\"" + rest;
    assert s[1..] == text + ("\"" + rest);
    PlainSpanOf(text, "\"" + rest);
    assert s[1..][..|text|] == text;
    assert s[1 + |text|] == '"';
    assert s[|text| + 2..] == rest;
  }

  lemma LexNumberOf(t: Tok, rest: string)
    requires IsNumeric(t)
    requires rest != [] ==> !IsNumberChar(rest[0])
    ensures Spell(t) != [] && (Spell(t)[0] == '-' || IsDigit(Spell(t)[0]))
    ensures LexNumber(Spell(t) + rest) == (t, |Spell(t)|)
  {
    hide LexNumber, Digits, Value, AllDigits;
    var v: nat := if t.NegZero? then 0 else if t.n >= 0 then t.n else -t.n;
    var sign := if t.NegZero? || t.n < 0 then "-" else "";
    DigitsValue(v);
    ZeroDigits();
    SpellSigned(t, v, sign);
    if sign == "" {
      LexUnsigned(Digits(v), rest);
      assert sign + Digits(v) + rest == Digits(v) + rest;
    } else {
      LexNegative(Digits(v), rest);
      assert sign + Digits(v) + rest == ['-'] + (Digits(v) + rest);
    }
  }

  lemma ZeroDigits()
    ensures Digits(0) == "0"
  {
  }

  lemma SpellSigned(t: Tok, v: nat, sign: string)
    requires IsNumeric(t)
    requires v == if t.NegZero? then 0 else if t.n >= 0 then t.n else -t.n
    requires sign == if t.NegZero? || t.n < 0 then "-" else ""
    ensures Spell(t) == sign + Digits(v) && Digits(v) != [] && IsDigit(Digits(v)[0])
  {
    hide Digits, Value;
    DigitsValue(v);
    ZeroDigits();
    if sign == "" { assert sign + Digits(v) == Digits(v); }
  }

  lemma DigitsAt(d: string, i: nat)
    requires AllDigits(d) && i < |d|
    ensures IsDigit(d[i])
  {
  }

  lemma LexUnsigned(d: string, rest: string)
    requires d != [] && AllDigits(d) && (|d| > 1 ==> d[0] != '0')
    requires rest != [] ==> !IsNumberChar(rest[0])
    ensures LexNumber(d + rest) == (Num(Value(d)), |d|)
  {
    hide DigitSpan, AllDigits, Value;
    var s := d + rest;
    DigitsAt(d, 0);
    DigitSpanOf(d, rest);
    assert s[0..] == s && s[..|d|] == d;
    assert s[0] == d[0];
    if rest != [] { assert s[|d|] == rest[0]; }
  }

  lemma LexNegative(d: string, rest: string)
    requires d != [] && AllDigits(d) && (|d| > 1 ==> d[0] != '0')
    requires rest != [] ==> !IsNumberChar(rest[0])
    ensures var n: int := Value(d);
            LexNumber(['-'] + (d + rest)) == (if n == 0 then NegZero else Num(-n), 1 + |d|)
  {
    hide DigitSpan, AllDigits, Value;
    var tail := d + rest;
    var s := ['-'] + tail;
    DigitSpanOf(d, rest);
    assert s[1..] == tail && tail[..|d|] == d;
    assert s[1] == d[0];
    if rest != [] { assert s[1 + |d|] == rest[0]; }
  }

  lemma NoWordHere(s: string)
    requires s != [] && s[0] != 't' && s[0] != 'f' && s[0] != 'n'
    ensures !("true" <= s) && !("false" <= s) && !("null" <= s)
  {
  }

  lemma LexAtNumber(s: string)
    requires s != [] && (s[0] == '-' || IsDigit(s[0]))
    requires LexNumber(s).0 != Bad
    ensures Lex(s) == [LexNumber(s).0] + Lex(s[LexNumber(s).1..])
  {
    hide LexNumber, PlainSpan;
    NoWordHere(s);
  }

  lemma LexNum(t: Tok, rest: string)
    requires IsNumeric(t)
    requires rest != [] ==> !IsNumberChar(rest[0])
    ensures Lex(Spell(t) + rest) == [t] + Lex(rest)
  {
    LexNumberOf(t, rest);
    LexAtNumber(Spell(t) + rest);
    assert (Spell(t) + rest)[|Spell(t)|..] == rest;
  }

  lemma LexWord(t: Tok, rest: string)
    requires t.True? || t.False? || t.Null?
    ensures Lex(Spell(t) + rest) == [t] + Lex(rest)
  {
    var w, s := Spell(t), Spell(t) + rest;
    assert w <= s && s[0] == w[0] && s[|w|..] == rest;
  }

  lemma LexMark(t: Tok, rest: string)
    requires t.LBrace? || t.RBrace? || t.LBracket? || t.RBracket? || t.Colon? || t.Comma?
    ensures Lex(Spell(t) + rest) == [t] + Lex(rest)
  {
    var s := Spell(t) + rest;
    assert s[0] == Spell(t)[0] && s[1..] == rest;
  }

  lemma LexTok(t: Tok, rest: string)
    requires Spellable(t)
    requires IsNumeric(t) && rest != [] ==> !IsNumberChar(rest[0])
    ensures Lex(Spell(t) + rest) == [t] + Lex(rest)
  {
    if t.Str? {
      LexStr(t.text, rest);
    } else if IsNumeric(t) {
      LexNum(t, rest);
    } else if t.True? || t.False? || t.Null? {
      LexWord(t, rest);
    } else {
      LexMark(t, rest);
    }
  }

  lemma GapStart(toks: seq<Tok>, gaps: seq<string>)
    requires |gaps| == |toks| + 1
    requires AllSpace(gaps[0])
    requires toks != [] ==> EndsValue(toks[0])
    ensures Spaced(toks, gaps) != [] ==> !IsNumberChar(Spaced(toks, gaps)[0])
  {
    if gaps[0] != [] {
      assert Spaced(toks, gaps)[0] == gaps[0][0];
    } else if toks != [] {
      assert Spaced(toks, gaps)[0] == Spell(toks[0])[0];
    }
  }

  /** Whatever insignificant whitespace surrounds the tokens, the same tokens are read back. */
  lemma {:induction false} LexSpaced(toks: seq<Tok>, gaps: seq<string>)
    requires |gaps| == |toks| + 1
    requires Lexable(toks)
    requires forall i :: 0 <= i < |gaps| ==> AllSpace(gaps[i])
    ensures Lex(Spaced(toks, gaps)) == toks
  {
    if toks == [] {
      LexSpace(gaps[0], []);
      assert gaps[0] + [] == gaps[0];
    } else {
      hide Lex, Spell;
      var tail := Spaced(toks[1..], gaps[1..]);
      LexSpaced(toks[1..], gaps[1..]);
      if IsNumeric(toks[0]) {
        GapStart(toks[1..], gaps[1..]);
      }
      LexTok(toks[0], tail);
      LexSpace(gaps[0], Spell(toks[0]) + tail);
      assert gaps[0] + Spell(toks[0]) + tail == gaps[0] + (Spell(toks[0]) + tail);
      assert toks == [toks[0]] + toks[1..];
    }
  }
}
