/**
  What the gateway accepts (apps/gateway/internal/model/event.go) and what the worker accepts
  (apps/risk-worker/src/main.rs with model.rs), on the same documents.
 */
module Ingress {
  import opened Wrappers
  import opened Json
  import opened Event

  // ----------------------------------------------------------------------------------------------
  // The gateway's streaming decoder (encoding/json), one flat object deep
  // ----------------------------------------------------------------------------------------------

  datatype Phase = TopValue | ArrayStart | ObjectStart | ObjectKey | ObjectColon | ObjectValue | ObjectComma

  datatype ReadError = Eof | Syntax

  datatype Scanner = Scanner(toks: seq<Tok>, pos: nat, phase: Phase)

  /** Reads one token, passing over the colons and commas the state allows. */
  function Token(d: Scanner): (r: (Result<Tok, ReadError>, Scanner))
    decreases |d.toks| - d.pos
  {
    if d.pos >= |d.toks| then (Err(Eof), d)
    else
      var t := d.toks[d.pos];
      var next := d.(pos := d.pos + 1);
      if t == LBrace && d.phase == TopValue then (Ok(t), next.(phase := ObjectStart))
      else if t == LBracket && d.phase == TopValue then (Ok(t), next.(phase := ArrayStart))
      else if t == RBrace && (d.phase == ObjectStart || d.phase == ObjectComma) then (Ok(t), next.(phase := TopValue))
      else if t == Colon && d.phase == ObjectColon then Token(next.(phase := ObjectValue))
      else if t == Comma && d.phase == ObjectComma then Token(next.(phase := ObjectKey))
      else if t.Str? && (d.phase == ObjectStart || d.phase == ObjectKey) then (Ok(t), next.(phase := ObjectColon))
      else if IsValue(t) && d.phase == TopValue then (Ok(t), next)
      else if IsValue(t) && d.phase == ObjectValue then (Ok(t), next.(phase := ObjectComma))
      else (Err(Syntax), d)
  }

  predicate More(d: Scanner) {
    d.pos < |d.toks| && d.toks[d.pos] != RBrace && d.toks[d.pos] != RBracket
  }

  /** Reads the value of the member whose key was just read. */
  function DecodeValue(d: Scanner): (r: (Option<Tok>, Scanner)) {
    if d.phase == ObjectColon && d.pos + 1 < |d.toks| && d.toks[d.pos] == Colon && IsValue(d.toks[d.pos + 1])
    then (Some(d.toks[d.pos + 1]), d.(pos := d.pos + 2, phase := ObjectComma))
    else (None, d)
  }

  // ----------------------------------------------------------------------------------------------
  // uniqueFields
  // ----------------------------------------------------------------------------------------------

  datatype DecodeError =
    | InvalidJson | Required(key: string) | UnexpectedFields | InvalidFieldType
    | EventIdLength | EventIdBytes | NegativeAmount | CodesNotUpper
    | CategoryRange | HourRange | NegativeCounts

  function Joined(done: seq<Member>, rest: Option<seq<Member>>): Option<seq<Member>> {
    if rest.None? then None else Some(done + rest.value)
  }

  /** Where the key of the next member has to be, and whether a comma is where one is due. */
  function NameAt(d: Scanner): nat {
    if d.phase == ObjectComma then d.pos + 1 else d.pos
  }

  ghost predicate NameRead(d: Scanner) {
    && More(d)
    && (d.phase == ObjectComma ==> d.toks[d.pos] == Comma)
    && NameAt(d) < |d.toks| && d.toks[NameAt(d)].Str?
  }

  lemma TokenReadsName(d: Scanner)
    requires More(d) && (d.phase == ObjectStart || d.phase == ObjectComma)
    ensures NameRead(d) ==> Token(d) == (Ok(d.toks[NameAt(d)]), Scanner(d.toks, NameAt(d) + 1, ObjectColon))
    ensures !NameRead(d) ==> Token(d).0.Err?
  {
    if d.phase == ObjectComma && d.toks[d.pos] == Comma {
      assert Token(d) == Token(d.(pos := d.pos + 1, phase := ObjectKey));
    }
  }

  /** What reading one more member does to the unread part of the document. */
  lemma RestStep(d: Scanner, done: seq<Member>)
    requires More(d) && d.phase == if done == [] then ObjectStart else ObjectComma
    ensures var here := Joined(done, Rest(d.toks[d.pos..], done == []));
            var named := Scanner(d.toks, NameAt(d) + 1, ObjectColon);
            var (value, after) := DecodeValue(named);
            if NameRead(d) && value.Some? then
              here == Joined(done + [Member(d.toks[NameAt(d)].text, value.value)], Rest(d.toks[after.pos..], false))
            else here.None?
  {
    var ts, first := d.toks[d.pos..], done == [];
    var body := if first then ts else ts[1..];
    assert body == d.toks[NameAt(d)..];
    if NameRead(d) && |body| >= 3 && body[1] == Colon && IsValue(body[2]) {
      var m := Member(body[0].text, body[2]);
      assert body[3..] == d.toks[NameAt(d) + 3..];
      match Rest(body[3..], false)
      case None =>
      case Some(ms) => assert done + ([m] + ms) == done + [m] + ms;
    }
  }

  lemma DuplicateStays(done: seq<Member>, m: Member, tail: seq<Member>)
    requires m.key in FieldsOf(done) && DistinctKeys(done)
    ensures !DistinctKeys(done + [m] + tail)
  {
    FieldsHold(done);
    var i :| 0 <= i < |done| && done[i].key == m.key;
    var all := done + [m] + tail;
    assert all[i].key == all[|done|].key;
  }

  lemma NewKeyStays(done: seq<Member>, m: Member)
    requires DistinctKeys(done) && m.key !in FieldsOf(done)
    ensures DistinctKeys(done + [m])
    ensures FieldsOf(done + [m]) == FieldsOf(done)[m.key := m.value]
  {
    FieldsHold(done);
    assert (done + [m])[..|done|] == done;
  }

  lemma RefuseRepeat(toks: seq<Tok>, d: Scanner, done: seq<Member>)
    requires d.toks == toks && NameRead(d) && d.phase == if done == [] then ObjectStart else ObjectComma
    requires Members(toks) == Joined(done, Rest(toks[d.pos..], done == []))
    requires DistinctKeys(done) && toks[NameAt(d)].text in FieldsOf(done)
    ensures Members(toks).Some? ==> !DistinctKeys(Members(toks).value)
  {
    RestStep(d, done);
    var (value, after) := DecodeValue(Scanner(toks, NameAt(d) + 1, ObjectColon));
    if Members(toks).Some? {
      DuplicateStays(done, Member(toks[NameAt(d)].text, value.value), Rest(toks[after.pos..], false).value);
    }
  }

  lemma TokenOpens(toks: seq<Tok>)
    ensures var (token, after) := Token(Scanner(toks, 0, TopValue));
            if toks != [] && toks[0] == LBrace then
              token == Ok(LBrace) && after == Scanner(toks, 1, ObjectStart) &&
                  Members(toks) == Joined([], Rest(toks[1..], true))
            else token != Ok(LBrace) && Members(toks).None?
  {
    if Members(toks).Some? {
      assert [] + Members(toks).value == Members(toks).value;
    }
  }

  lemma RestEnds(ts: seq<Tok>, first: bool)
    requires ts == [] || ts[0] == RBrace || ts[0] == RBracket
    ensures Rest(ts, first) == if |ts| == 1 && ts[0] == RBrace then Some([]) else None
  {
  }

  lemma TokenCloses(d: Scanner, done: seq<Member>)
    requires !More(d) && d.pos <= |d.toks| && d.phase == if done == [] then ObjectStart else ObjectComma
    ensures var (close, closed) := Token(d);
            Joined(done, Rest(d.toks[d.pos..], done == [])) ==
            if close.Ok? && Token(closed).0 == Err(Eof) then Some(done) else None
  {
    hide Rest, IsValue;
    RestEnds(d.toks[d.pos..], done == []);
    assert done + [] == done;
  }

  /** The fields of the one object in the document, or a refusal of anything else and of repeated keys. */
  method UniqueFields(toks: seq<Tok>) returns (r: Result<map<string, Tok>, DecodeError>)
    ensures r.Ok? <==> Members(toks).Some? && DistinctKeys(Members(toks).value)
    ensures r.Ok? ==> r.value == FieldsOf(Members(toks).value)
    ensures r.Err? ==> r.error == InvalidJson
  {
    hide Rest, Members;
    TokenOpens(toks);
    var (token, inside) := Token(Scanner(toks, 0, TopValue));
    if token != Ok(LBrace) {
      return Err(InvalidJson);
    }
    var d := inside;
    var fields: map<string, Tok> := map[];
    ghost var done: seq<Member> := [];
    while More(d)
      invariant d.toks == toks && 1 <= d.pos <= |toks|
      invariant d.phase == if done == [] then ObjectStart else ObjectComma
      invariant DistinctKeys(done) && fields == FieldsOf(done)
      invariant Members(toks) == Joined(done, Rest(toks[d.pos..], done == []))
      decreases |toks| - d.pos
    {
      RestStep(d, done);
      TokenReadsName(d);
      var (name, afterName) := Token(d);
      if name.Err? {
        return Err(InvalidJson);
      }
      var key := name.value.text;
      if key in fields {
        RefuseRepeat(toks, d, done);
        return Err(InvalidJson);
      }
      var (value, afterValue) := DecodeValue(afterName);
      if value.None? {
        return Err(InvalidJson);
      }
      ghost var m := Member(key, value.value);
      NewKeyStays(done, m);
      fields := fields[key := value.value];
      done := done + [m];
      d := afterValue;
    }
    TokenCloses(d, done);
    var (close, closed) := Token(d);
    if close.Err? {
      return Err(InvalidJson);
    }
    var (last, _) := Token(closed);
    if last != Err(Eof) {
      return Err(InvalidJson);
    }
    return Ok(fields);
  }

  // ----------------------------------------------------------------------------------------------
  // Decode
  // ----------------------------------------------------------------------------------------------

  /** What encoding/json stores into a field of that kind without an error. */
  predicate GatewayTokOk(kind: Kind, t: Tok) {
    match kind
    case Text => t.Str?
    case Flag => t.True? || t.False?
    case Long => t.NegZero? || (t.Num? && FitsInt64(t.n))
    case Short => t.NegZero? || (t.Num? && FitsInt32(t.n))
  }

  function Unmarshal(names: seq<string>, f: map<string, Tok>): Option<PaymentEvent>
    requires HasAllFields(names, f)
  {
    if forall i :: 0 <= i < FIELDS ==> GatewayTokOk(FieldKind(i), f[names[i]]) then Some(Build(names, f)) else None
  }

  /** The range checks, in the order in which the first failing one is reported. */
  function CheckEvent(e: PaymentEvent): Option<DecodeError> {
    if |e.eventId| == 0 || |e.eventId| > 128 then Some(EventIdLength)
    else if exists i :: 0 <= i < |e.eventId| && !IsIdByte(e.eventId[i]) then Some(EventIdBytes)
    else if e.amountCents < 0 then Some(NegativeAmount)
    else if !IsUpperCode(e.currency, 3) || !IsUpperCode(e.country, 2) then Some(CodesNotUpper)
    else if e.merchantCategory < 0 || e.merchantCategory > 9999 then Some(CategoryRange)
    else if e.hourUtc < 0 || e.hourUtc > 23 then Some(HourRange)
    else if e.velocity5m < 0 || e.velocity1h < 0 || e.priorDeclines < 0 then Some(NegativeCounts)
    else None
  }

  function FirstMissing(f: map<string, Tok>, keys: seq<string>): Option<string> {
    if keys == [] then None
    else if keys[0] !in f || f[keys[0]] == Null then Some(keys[0])
    else FirstMissing(f, keys[1..])
  }

  lemma {:induction false} NoneMissing(f: map<string, Tok>, keys: seq<string>)
    ensures FirstMissing(f, keys).None? <==>
            forall i :: 0 <= i < |keys| ==> keys[i] in f && f[keys[i]] != Null
  {
    if keys == [] {
    } else {
      NoneMissing(f, keys[1..]);
      if keys[0] in f && f[keys[0]] != Null && FirstMissing(f, keys[1..]).None? {
        forall i | 0 <= i < |keys| ensures keys[i] in f && f[keys[i]] != Null {
          if i > 0 { assert keys[i] == keys[1..][i - 1]; }
        }
      }
    }
  }

  /** Everything Decode does after it has the fields. */
  function DecodeFields(names: seq<string>, f: map<string, Tok>): Result<PaymentEvent, DecodeError>
    requires |names| == FIELDS
  {
    var missing := FirstMissing(f, names);
    if missing.Some? then Err(Required(missing.value))
    else if |f| != FIELDS then Err(UnexpectedFields)
    else
      NoneMissing(f, names);
      match Unmarshal(names, f)
      case None => Err(InvalidFieldType)
      case Some(e) => match CheckEvent(e)
        case None => Ok(e)
        case Some(error) => Err(error)
  }

  /** The outcome of Decode on a document. */
  ghost function Decoded(names: seq<string>, toks: seq<Tok>): Result<PaymentEvent, DecodeError>
    requires |names| == FIELDS
  {
    match Members(toks)
    case None => Err(InvalidJson)
    case Some(ms) => if DistinctKeys(ms) then DecodeFields(names, FieldsOf(ms)) else Err(InvalidJson)
  }

  // ----------------------------------------------------------------------------------------------
  // Which refusal means what
  // ----------------------------------------------------------------------------------------------

  /** Letters, digits, underscore, hyphen, dot and colon, by their codes. */
  predicate IdCode(c: char) {
    || 97 <= c as int <= 122 || 65 <= c as int <= 90 || 48 <= c as int <= 57
    || c as int == 95 || c as int == 45 || c as int == 46 || c as int == 58
  }

  ghost predicate IdCodes(s: string) { forall i :: 0 <= i < |s| ==> IdCode(s[i]) }

  ghost predicate UpperCodes(s: string, n: nat) { |s| == n && forall i :: 0 <= i < n ==> 65 <= s[i] as int <= 90 }

  lemma CodesAgree(e: PaymentEvent)
    ensures IdCodes(e.eventId) <==> forall i :: 0 <= i < |e.eventId| ==> IsIdByte(e.eventId[i])
    ensures UpperCodes(e.currency, 3) <==> IsUpperCode(e.currency, 3)
    ensures UpperCodes(e.country, 2) <==> IsUpperCode(e.country, 2)
  {
    forall i | 0 <= i < |e.eventId| ensures IdCode(e.eventId[i]) <==> IsIdByte(e.eventId[i]) {
    }
  }

  /** Each range error is reported exactly for events that break that range and none that is checked before it. */
  lemma RangeErrors(e: PaymentEvent)
    ensures var r := CheckEvent(e);
            var named := 1 <= |e.eventId| <= 128 && IdCodes(e.eventId);
            var paid := named && 0 <= e.amountCents;
            var coded := paid && UpperCodes(e.currency, 3) && UpperCodes(e.country, 2);
            var filed := coded && 0 <= e.merchantCategory <= 9999;
            var timed := filed && 0 <= e.hourUtc <= 23;
            var counted := timed && 0 <= e.velocity5m && 0 <= e.velocity1h && 0 <= e.priorDeclines;
            && (r == Some(EventIdLength) <==> |e.eventId| == 0 || 128 < |e.eventId|)
            && (r == Some(EventIdBytes) <==> 1 <= |e.eventId| <= 128 && !IdCodes(e.eventId))
            && (r == Some(NegativeAmount) <==> named && e.amountCents < 0)
            && (r == Some(CodesNotUpper) <==> paid && !coded)
            && (r == Some(CategoryRange) <==> coded && !filed)
            && (r == Some(HourRange) <==> filed && !timed)
            && (r == Some(NegativeCounts) <==> timed && !counted)
            && (r.None? <==> counted)
  {
    hide IdCodes, UpperCodes, IsUpperCode, IsIdByte;
    CodesAgree(e);
  }

  /** A value a struct field can take: text, a truth value, or an integer of 64 or 32 bits. */
  predicate FitsField(i: nat, t: Tok) {
    if i == 0 || i == 2 || i == 4 then t.Str?
    else if i == 5 then t.True? || t.False?
    else
      || t.NegZero?
      || (t.Num? && i == 1 && -9223372036854775808 <= t.n <= 9223372036854775807)
      || (t.Num? && i != 1 && -2147483648 <= t.n <= 2147483647)
  }

  ghost predicate Present(names: seq<string>, f: map<string, Tok>, i: nat)
    requires i < |names|
  {
    names[i] in f && f[names[i]] != Null
  }

  ghost predicate AllPresent(names: seq<string>, f: map<string, Tok>) {
    forall i :: 0 <= i < |names| ==> Present(names, f, i)
  }

  ghost predicate FirstAbsent(names: seq<string>, f: map<string, Tok>, i: nat) {
    i < |names| && !Present(names, f, i) && forall j :: 0 <= j < i ==> Present(names, f, j)
  }

  lemma {:induction false} FirstMissingIs(f: map<string, Tok>, keys: seq<string>, i: nat)
    requires FirstAbsent(keys, f, i)
    ensures FirstMissing(f, keys) == Some(keys[i])
    decreases i
  {
    if i == 0 {
      assert !Present(keys, f, 0);
    } else {
      assert Present(keys, f, 0);
      assert Present(keys[1..], f, i - 1) == Present(keys, f, i);
      forall j | 0 <= j < i - 1 ensures Present(keys[1..], f, j) {
        assert Present(keys, f, j + 1);
      }
      FirstMissingIs(f, keys[1..], i - 1);
    }
  }

  lemma FieldTypes(i: nat, t: Tok)
    requires i < FIELDS
    ensures FitsField(i, t) <==> GatewayTokOk(FieldKind(i), t)
  {
  }

  ghost predicate AllFit(names: seq<string>, f: map<string, Tok>)
    requires HasAllFields(names, f)
  {
    forall i :: 0 <= i < FIELDS ==> FitsField(i, f[names[i]])
  }

  lemma AllFitExactly(names: seq<string>, f: map<string, Tok>)
    requires HasAllFields(names, f)
    ensures AllFit(names, f) <==> Unmarshal(names, f).Some?
  {
    forall i | 0 <= i < FIELDS ensures FitsField(i, f[names[i]]) <==> GatewayTokOk(FieldKind(i), f[names[i]]) {
      FieldTypes(i, f[names[i]]);
    }
  }

  /**
    What each refusal in front of the range checks means: a document that is not one object with distinct keys; the
    first required field that is absent or null; more fields than the ten; a field of the wrong type.
   */
  lemma DecodeErrors(names: seq<string>, toks: seq<Tok>)
    requires |names| == FIELDS
    ensures Decoded(names, toks) == Err(InvalidJson) <==>
            Members(toks).None? || !DistinctKeys(Members(toks).value)
    ensures Members(toks).Some? && DistinctKeys(Members(toks).value) ==>
              var ms := Members(toks).value;
              var f := FieldsOf(ms);
              && (forall i: nat :: FirstAbsent(names, f, i) ==> Decoded(names, toks) == Err(Required(names[i])))
              && (AllPresent(names, f) && |ms| != 10 ==> Decoded(names, toks) == Err(UnexpectedFields))
              && (AllPresent(names, f) && |ms| == 10 && !AllFit(names, f) ==>
                    Decoded(names, toks) == Err(InvalidFieldType))
              && (AllPresent(names, f) && |ms| == 10 && AllFit(names, f) ==>
                    Decoded(names, toks) ==
                    match CheckEvent(Build(names, f)) case None => Ok(Build(names, f)) case Some(error) => Err(error))
  {
    hide FirstMissing, Unmarshal, CheckEvent, Build, AllFit, FieldsOf, Members;
    NoJsonError();
    if Members(toks).Some? && DistinctKeys(Members(toks).value) {
      var ms := Members(toks).value;
      var f := FieldsOf(ms);
      FieldsHold(ms);
      NoneMissing(f, names);
      forall i: nat | FirstAbsent(names, f, i) ensures FirstMissing(f, names) == Some(names[i]) {
        FirstMissingIs(f, names, i);
      }
      if AllPresent(names, f) {
        PresentHere(names, f);
        AllFitExactly(names, f);
        if AllFit(names, f) { UnmarshalIsBuild(names, f); }
      }
    }
  }

  lemma PresentHere(names: seq<string>, f: map<string, Tok>)
    requires |names| == FIELDS && AllPresent(names, f)
    ensures HasAllFields(names, f) && forall i :: 0 <= i < |names| ==> names[i] in f && f[names[i]] != Null
  {
    forall i | 0 <= i < |names| ensures names[i] in f && f[names[i]] != Null {
      assert Present(names, f, i);
    }
  }

  lemma UnmarshalIsBuild(names: seq<string>, f: map<string, Tok>)
    requires HasAllFields(names, f) && Unmarshal(names, f).Some?
    ensures Unmarshal(names, f) == Some(Build(names, f))
  {
  }

  /** No range check reports a JSON error. */
  lemma NoJsonError()
    ensures forall e :: CheckEvent(e) != Some(InvalidJson)
  {
  }

  method CheckRanges(event: PaymentEvent) returns (r: Option<DecodeError>)
    ensures r == CheckEvent(event)
  {
    if |event.eventId| == 0 || |event.eventId| > 128 {
      return Some(EventIdLength);
    }
    var i := 0;
    while i < |event.eventId|
      invariant 0 <= i <= |event.eventId|
      invariant forall j :: 0 <= j < i ==> IsIdByte(event.eventId[j])
    {
      if !IsIdByte(event.eventId[i]) {
        return Some(EventIdBytes);
      }
      i := i + 1;
    }
    if event.amountCents < 0 {
      return Some(NegativeAmount);
    }
    if !IsUpperCode(event.currency, 3) || !IsUpperCode(event.country, 2) {
      return Some(CodesNotUpper);
    }
    if event.merchantCategory < 0 || event.merchantCategory > 9999 {
      return Some(CategoryRange);
    }
    if event.hourUtc < 0 || event.hourUtc > 23 {
      return Some(HourRange);
    }
    if event.velocity5m < 0 || event.velocity1h < 0 || event.priorDeclines < 0 {
      return Some(NegativeCounts);
    }
    return None;
  }

  method Decode(names: seq<string>, toks: seq<Tok>) returns (r: Result<PaymentEvent, DecodeError>)
    requires |names| == FIELDS
    ensures r == Decoded(names, toks)
  {
    var unique := UniqueFields(toks);
    if unique.Err? {
      return Err(InvalidJson);
    }
    var fields := unique.value;
    var i := 0;
    while i < |names|
      invariant 0 <= i <= |names|
      invariant FirstMissing(fields, names) == FirstMissing(fields, names[i..])
    {
      var key := names[i];
      if key !in fields || fields[key] == Null {
        return Err(Required(key));
      }
      i := i + 1;
    }
    NoneMissing(fields, names);
    if |fields| != FIELDS {
      return Err(UnexpectedFields);
    }
    var stored := Unmarshal(names, fields);
    if stored.None? {
      return Err(InvalidFieldType);
    }
    var failed := CheckRanges(stored.value);
    if failed.Some? {
      return Err(failed.value);
    }
    return Ok(stored.value);
  }

  // ----------------------------------------------------------------------------------------------
  // Exactly which documents the gateway accepts
  // ----------------------------------------------------------------------------------------------

  function NormalTok(t: Tok): Tok { if t.NegZero? then Num(0) else t }

  /** The members with -0 read as 0. */
  function Normal(ms: seq<Member>): seq<Member> {
    seq(|ms|, i requires 0 <= i < |ms| => Member(ms[i].key, NormalTok(ms[i].value)))
  }

  lemma NormalFields(ms: seq<Member>)
    requires DistinctKeys(ms)
    ensures DistinctKeys(Normal(ms))
    ensures FieldsOf(Normal(ms)) == map k | k in FieldsOf(ms) :: NormalTok(FieldsOf(ms)[k])
  {
    hide FieldsOf, NormalTok, DistinctKeys;
    var ns := Normal(ms);
    NormalKeepsRepeats(ms);
    FieldsHold(ms);
    FieldsHold(ns);
    var f, g := FieldsOf(ms), FieldsOf(ns);
    forall k | k in f ensures k in g && g[k] == NormalTok(f[k]) {
      var i :| 0 <= i < |ms| && ms[i].key == k;
      assert ns[i] == Member(k, NormalTok(ms[i].value));
    }
    forall k | k in g ensures k in f {
      var i :| 0 <= i < |ns| && ns[i].key == k;
      assert ns[i] == Member(ms[i].key, NormalTok(ms[i].value));
    }
  }

  ghost predicate InRange(e: PaymentEvent, i: nat) {
    match FieldTok(e, i)
    case Num(n) => if i == 1 then FitsInt64(n) else FitsInt32(n)
    case _ => true
  }

  lemma TypedByField(e: PaymentEvent)
    ensures Typed(e) <==> forall i :: 0 <= i < FIELDS ==> InRange(e, i)
  {
    if forall i :: 0 <= i < FIELDS ==> InRange(e, i) {
      assert InRange(e, 1) && InRange(e, 3) && InRange(e, 6) && InRange(e, 7) && InRange(e, 8) && InRange(e, 9);
    }
  }

  lemma BuildField(names: seq<string>, f: map<string, Tok>, i: nat)
    requires HasAllFields(names, f) && i < FIELDS
    requires GatewayTokOk(FieldKind(i), f[names[i]])
    ensures FieldTok(Build(names, f), i) == NormalTok(f[names[i]])
    ensures InRange(Build(names, f), i)
  {
    var t := f[names[i]];
    if i == 0 || i == 2 || i == 4 {
      assert t.Str?;
    } else if i == 5 {
      assert t.True? || t.False?;
    } else {
      assert t.Num? || t.NegZero?;
    }
  }

  lemma UnmarshalSpells(names: seq<string>, f: map<string, Tok>, e: PaymentEvent)
    requires HasAllFields(names, f)
    ensures Unmarshal(names, f) == Some(e) <==>
            Typed(e) && forall i :: 0 <= i < FIELDS ==> NormalTok(f[names[i]]) == FieldTok(e, i)
  {
    TypedByField(e);
    if Unmarshal(names, f) == Some(e) {
      forall i | 0 <= i < FIELDS ensures NormalTok(f[names[i]]) == FieldTok(e, i) && InRange(e, i) {
        BuildField(names, f, i);
      }
    }
    if Typed(e) && forall i :: 0 <= i < FIELDS ==> NormalTok(f[names[i]]) == FieldTok(e, i) {
      forall i | 0 <= i < FIELDS
        ensures GatewayTokOk(FieldKind(i), f[names[i]]) && FieldTok(Build(names, f), i) == FieldTok(e, i)
      {
        assert InRange(e, i);
        assert GatewayTokOk(FieldKind(i), f[names[i]]);
        BuildField(names, f, i);
      }
      SameFields(Build(names, f), e);
    }
  }

  lemma CheckIffWorkerValid(e: PaymentEvent)
    ensures CheckEvent(e).None? <==> WorkerValid(e)
  {
  }

  lemma DecodeFieldsExactly(names: seq<string>, ms: seq<Member>, e: PaymentEvent)
    requires Schema(names)
    requires DistinctKeys(ms)
    ensures DecodeFields(names, FieldsOf(ms)) == Ok(e) <==>
            Valid(e) && FieldsOf(Normal(ms)) == FieldsOf(EventMembers(names, e))
  {
    hide FieldsOf, WorkerValid, CheckEvent, Typed, Holds, DecodeFields, DistinctKeys, Stored;
    var f := FieldsOf(ms);
    var g := FieldsOf(Normal(ms));
    NormalFields(ms);
    CheckIffWorkerValid(e);
    HoldsExactly(names, g, e);
    DecodeFieldsStages(names, f, e);
    StoredExactly(names, f, g, e);
  }

  /** All ten fields are there, none is null, none is extra, and they have the right types. */
  ghost predicate Stored(names: seq<string>, f: map<string, Tok>, e: PaymentEvent) {
    && HasAllFields(names, f) && (forall i :: 0 <= i < FIELDS ==> f[names[i]] != Null)
    && |f| == FIELDS && Unmarshal(names, f) == Some(e)
  }

  lemma DecodeFieldsStages(names: seq<string>, f: map<string, Tok>, e: PaymentEvent)
    requires |names| == FIELDS
    ensures DecodeFields(names, f) == Ok(e) <==> Stored(names, f, e) && CheckEvent(e).None?
  {
    hide CheckEvent, Unmarshal, FirstMissing;
    NoneMissing(f, names);
  }

  lemma StoredExactly(names: seq<string>, f: map<string, Tok>, g: map<string, Tok>, e: PaymentEvent)
    requires |names| == FIELDS
    requires g == map k | k in f :: NormalTok(f[k])
    ensures Stored(names, f, e) <==> Typed(e) && Holds(names, g, e) && |g| == FIELDS
  {
    hide Unmarshal, Typed;
    assert g.Keys == f.Keys;
    assert |g| == |g.Keys| && |f| == |f.Keys|;
    if HasAllFields(names, f) {
      UnmarshalSpells(names, f, e);
    }
    if Holds(names, g, e) {
      forall i | 0 <= i < FIELDS ensures names[i] in f && f[names[i]] != Null {
        assert NormalTok(f[names[i]]) == FieldTok(e, i);
      }
    }
  }

  /**
    The gateway accepts exactly the documents whose members are some permutation of the canonical
    members of a valid event (with -0 standing for 0), and it decodes them to that event.
   */
  lemma GatewayAcceptsExactly(names: seq<string>, toks: seq<Tok>, e: PaymentEvent)
    requires Schema(names)
    ensures Decoded(names, toks) == Ok(e) <==>
            && Valid(e)
            && Members(toks).Some?
            && multiset(Normal(Members(toks).value)) == multiset(EventMembers(names, e))
  {
    EventFields(names, e);
    if Members(toks).Some? {
      var ms := Members(toks).value;
      if DistinctKeys(ms) {
        DecodeFieldsExactly(names, ms, e);
        NormalFields(ms);
        FieldsIffSameMembers(Normal(ms), EventMembers(names, e));
      } else {
        NormalKeepsRepeats(ms);
        if multiset(Normal(ms)) == multiset(EventMembers(names, e)) {
          DistinctPermuted(EventMembers(names, e), Normal(ms));
        }
      }
    }
  }

  lemma NormalKeepsRepeats(ms: seq<Member>)
    ensures DistinctKeys(Normal(ms)) <==> DistinctKeys(ms)
  {
    var ns := Normal(ms);
    assert forall i :: 0 <= i < |ms| ==> ns[i].key == ms[i].key;
  }
}
