/**
  The canonical payload bytes, the worker's reading of a payload, and how the two services agree.
 */
module Canonical {
  import opened Wrappers
  import opened Decimal
  import opened Json
  import opened Event
  import opened Ingress

  // ----------------------------------------------------------------------------------------------
  // The worker's parse (serde with deny_unknown_fields)
  // ----------------------------------------------------------------------------------------------

  /** Stores one member after another, refusing unknown and repeated names. */
  function Absorb(names: seq<string>, ms: seq<Member>, seen: map<string, Tok>): Option<map<string, Tok>> {
    if ms == [] then Some(seen)
    else if ms[0].key !in names || ms[0].key in seen then None
    else Absorb(names, ms[1..], seen[ms[0].key := ms[0].value])
  }

  /** What serde stores into a field of that kind; -0 is a floating-point literal to serde_json. */
  predicate WorkerTokOk(kind: Kind, t: Tok) {
    match kind
    case Text => t.Str?
    case Flag => t.True? || t.False?
    case Long => t.Num? && FitsInt64(t.n)
    case Short => t.Num? && FitsInt32(t.n)
  }

  function WorkerFields(names: seq<string>, f: map<string, Tok>): Option<PaymentEvent> {
    if HasAllFields(names, f) && (forall i :: 0 <= i < FIELDS ==> WorkerTokOk(FieldKind(i), f[names[i]]))
    then Some(Build(names, f)) else None
  }

  function WorkerObject(names: seq<string>, toks: seq<Tok>): Option<PaymentEvent> {
    match Members(toks)
    case None => None
    case Some(ms) =>
      match Absorb(names, ms, map[])
      case None => None
      case Some(f) => WorkerFields(names, f)
  }

  /** A derived Deserialize also takes an array of the ten values in the order of the struct. */
  function WorkerArray(toks: seq<Tok>): Option<PaymentEvent> {
    match Elements(toks)
    case None => None
    case Some(vs) =>
      if |vs| == FIELDS && (forall i :: 0 <= i < FIELDS ==> WorkerTokOk(FieldKind(i), vs[i])) then Some(BuildRow(vs))
      else None
  }

  /** The event the worker scores for a document, or None when it dead-letters the entry. */
  function WorkerDecoded(names: seq<string>, toks: seq<Tok>): Option<PaymentEvent> {
    match if toks != [] && toks[0] == LBracket then WorkerArray(toks) else WorkerObject(names, toks)
    case None => None
    case Some(e) => if WorkerValid(e) then Some(e) else None
  }

  lemma {:induction false} AbsorbAll(names: seq<string>, done: seq<Member>, ms: seq<Member>)
    requires DistinctKeys(done)
    ensures var all := done + ms;
            Absorb(names, ms, FieldsOf(done)) ==
            if DistinctKeys(all) && (forall i :: 0 <= i < |ms| ==> ms[i].key in names) then Some(FieldsOf(all))
                else None
    decreases ms
  {
    var all := done + ms;
    if ms == [] {
      assert all == done;
    } else if ms[0].key in FieldsOf(done) {
      DuplicateStays(done, ms[0], ms[1..]);
      assert all == done + [ms[0]] + ms[1..];
    } else {
      NewKeyStays(done, ms[0]);
      AbsorbAll(names, done + [ms[0]], ms[1..]);
      assert all == done + [ms[0]] + ms[1..];
      assert forall i :: 0 < i < |ms| ==> ms[i] == ms[1..][i - 1];
      assert forall i :: 0 <= i < |ms[1..]| ==> ms[1..][i] == ms[i + 1];
    }
  }

  lemma WorkerFieldsExactly(names: seq<string>, f: map<string, Tok>, e: PaymentEvent)
    ensures WorkerFields(names, f) == Some(e) <==> Typed(e) && Holds(names, f, e)
  {
    TypedByField(e);
    if HasAllFields(names, f) {
      UnmarshalSpells(names, f, e);
      if WorkerFields(names, f) == Some(e) {
        forall i | 0 <= i < FIELDS ensures f[names[i]] == FieldTok(e, i) {
          assert WorkerTokOk(FieldKind(i), f[names[i]]);
          assert GatewayTokOk(FieldKind(i), f[names[i]]);
          BuildField(names, f, i);
        }
      }
      if Typed(e) && Holds(names, f, e) {
        forall i | 0 <= i < FIELDS ensures WorkerTokOk(FieldKind(i), f[names[i]]) &&
            NormalTok(f[names[i]]) == FieldTok(e, i) {
          assert InRange(e, i);
        }
      }
    }
  }

  ghost predicate KnownKeys(names: seq<string>, ms: seq<Member>) {
    forall i :: 0 <= i < |ms| ==> ms[i].key in names
  }

  lemma AbsorbFields(names: seq<string>, ms: seq<Member>)
    ensures Absorb(names, ms, map[]) ==
            if DistinctKeys(ms) && KnownKeys(names, ms) then Some(FieldsOf(ms)) else None
  {
    AbsorbAll(names, [], ms);
    assert [] + ms == ms;
  }

  /** Among members with known, distinct names, holding an event's ten values is being that event's fields. */
  lemma KnownHoldsExactly(names: seq<string>, ms: seq<Member>, e: PaymentEvent)
    requires Schema(names) && DistinctKeys(ms)
    ensures KnownKeys(names, ms) && Holds(names, FieldsOf(ms), e) <==> FieldsOf(ms) == FieldsOf(EventMembers(names, e))
  {
    var f := FieldsOf(ms);
    FieldsHold(ms);
    HoldsExactly(names, f, e);
    EventFields(names, e);
    if KnownKeys(names, ms) && Holds(names, f, e) {
      forall k | k in f.Keys ensures k in names {
        var i :| 0 <= i < |ms| && ms[i].key == k;
      }
      KeysAreNames(names, f);
    }
  }

  lemma AbsorbedFieldsExactly(names: seq<string>, ms: seq<Member>, e: PaymentEvent)
    requires Schema(names) && DistinctKeys(ms)
    ensures var absorbed := Absorb(names, ms, map[]);
            (absorbed.Some? && WorkerFields(names, absorbed.value) == Some(e)) <==>
            Typed(e) && FieldsOf(ms) == FieldsOf(EventMembers(names, e))
  {
    AbsorbFields(names, ms);
    KnownHoldsExactly(names, ms, e);
    WorkerFieldsExactly(names, FieldsOf(ms), e);
  }

  lemma ObjectExactly(names: seq<string>, toks: seq<Tok>, e: PaymentEvent)
    requires Schema(names)
    ensures WorkerObject(names, toks) == Some(e) <==>
            && Typed(e)
            && Members(toks).Some?
            && multiset(Members(toks).value) == multiset(EventMembers(names, e))
  {
    EventFields(names, e);
    if Members(toks).Some? {
      var ms := Members(toks).value;
      if DistinctKeys(ms) {
        AbsorbedFieldsExactly(names, ms, e);
        FieldsIffSameMembers(ms, EventMembers(names, e));
      } else {
        AbsorbFields(names, ms);
        if multiset(ms) == multiset(EventMembers(names, e)) {
          DistinctPermuted(EventMembers(names, e), ms);
        }
      }
    }
  }

  lemma RowField(vs: seq<Tok>, i: nat)
    requires |vs| == FIELDS && i < FIELDS && WorkerTokOk(FieldKind(i), vs[i])
    ensures FieldTok(BuildRow(vs), i) == vs[i] && InRange(BuildRow(vs), i)
  {
  }

  /** Ten values of the right types are those of exactly one event. */
  lemma RowExactly(vs: seq<Tok>, e: PaymentEvent)
    requires |vs| == FIELDS
    ensures (forall i :: 0 <= i < FIELDS ==> WorkerTokOk(FieldKind(i), vs[i])) && BuildRow(vs) == e <==>
            Typed(e) && vs == EventRow(e)
  {
    hide Typed, BuildRow;
    TypedByField(e);
    if (forall i :: 0 <= i < FIELDS ==> WorkerTokOk(FieldKind(i), vs[i])) && BuildRow(vs) == e {
      forall i | 0 <= i < FIELDS ensures vs[i] == FieldTok(e, i) && InRange(e, i) {
        RowField(vs, i);
      }
    }
    if Typed(e) && vs == EventRow(e) {
      forall i | 0 <= i < FIELDS ensures WorkerTokOk(FieldKind(i), vs[i]) &&
          FieldTok(BuildRow(vs), i) == FieldTok(e, i) {
        assert InRange(e, i);
        assert WorkerTokOk(FieldKind(i), vs[i]);
        RowField(vs, i);
      }
      SameFields(BuildRow(vs), e);
    }
  }

  lemma ArrayExactly(toks: seq<Tok>, e: PaymentEvent)
    ensures WorkerArray(toks) == Some(e) <==> Typed(e) && toks == RenderRow(EventRow(e))
  {
    RowIsValues(e);
    ElementsIffRender(toks, EventRow(e));
    if Elements(toks).Some? && |Elements(toks).value| == FIELDS {
      RowExactly(Elements(toks).value, e);
    }
  }

  lemma RowIsValues(e: PaymentEvent)
    ensures AllValues(EventRow(e))
  {
    forall i | 0 <= i < FIELDS ensures IsValue(EventRow(e)[i]) {
    }
  }

  /** An object starts with a brace. */
  lemma ObjectOrArray(toks: seq<Tok>)
    requires Members(toks).Some?
    ensures toks != [] && toks[0] == LBrace
  {
  }

  /**
    The worker accepts exactly the permutations of the canonical members of valid events, -0 excluded, and the
    arrays of their ten values in order.
   */
  lemma WorkerAcceptsExactly(names: seq<string>, toks: seq<Tok>, e: PaymentEvent)
    requires Schema(names)
    ensures WorkerDecoded(names, toks) == Some(e) <==>
            && Valid(e)
            && (toks == RenderRow(EventRow(e)) ||
                (Members(toks).Some? && multiset(Members(toks).value) == multiset(EventMembers(names, e))))
  {
    hide WorkerObject, WorkerArray, EventRow, EventMembers, Typed, WorkerValid, Members;
    ObjectExactly(names, toks, e);
    ArrayExactly(toks, e);
    if Members(toks).Some? { ObjectOrArray(toks); }
  }

  lemma KeysAreNames(names: seq<string>, f: map<string, Tok>)
    requires Schema(names) && HasAllFields(names, f)
    requires forall k :: k in f.Keys ==> k in names
    ensures |f| == FIELDS
  {
    NameCount(names, FIELDS);
    var all := set i | 0 <= i < FIELDS :: names[i];
    assert f.Keys == all;
  }

  lemma {:induction false} NameCount(names: seq<string>, n: nat)
    requires Schema(names) && n <= FIELDS
    ensures |set i | 0 <= i < n :: names[i]| == n
  {
    var now := set i | 0 <= i < n :: names[i];
    if n > 0 {
      NameCount(names, n - 1);
      var before := set i | 0 <= i < n - 1 :: names[i];
      assert names[n - 1] !in before;
      assert now == before + {names[n - 1]};
    } else {
      assert now == {};
    }
  }

  /**
    The two parsers disagree on two things: of the documents the gateway accepts, the worker would refuse exactly
    those that write a zero as -0; of those the worker accepts, the gateway refuses exactly the arrays.
   */
  lemma ParsersDifferExactly(names: seq<string>, toks: seq<Tok>, e: PaymentEvent)
    requires Schema(names)
    ensures Decoded(names, toks) == Ok(e) ==>
              && (WorkerDecoded(names, toks).None? <==> exists m :: m in Members(toks).value && m.value == NegZero)
              && (WorkerDecoded(names, toks).None? || WorkerDecoded(names, toks) == Some(e))
    ensures WorkerDecoded(names, toks) == Some(e) ==>
              (Decoded(names, toks) == Ok(e) <==> toks != RenderRow(EventRow(e)))
  {
    hide WorkerDecoded, Decoded, EventRow, EventMembers, Valid, Members;
    GatewayAcceptsExactly(names, toks, e);
    WorkerAcceptsExactly(names, toks, e);
    if Members(toks).Some? {
      ObjectOrArray(toks);
      NegZeroTells(names, Members(toks).value, e);
      if Decoded(names, toks) == Ok(e) && WorkerDecoded(names, toks).Some? {
        var read := WorkerDecoded(names, toks).value;
        WorkerAcceptsExactly(names, toks, read);
        NegZeroTells(names, Members(toks).value, read);
        GatewayAcceptsExactly(names, toks, read);
      }
    }
  }

  /** Members that are an event's once -0 is read as 0 are the event's themselves unless there is a -0. */
  lemma NegZeroTells(names: seq<string>, ms: seq<Member>, e: PaymentEvent)
    requires |names| == FIELDS
    ensures multiset(ms) == multiset(EventMembers(names, e)) <==>
            multiset(Normal(ms)) == multiset(EventMembers(names, e)) && forall m :: m in ms ==> m.value != NegZero
  {
    if forall m :: m in ms ==> m.value != NegZero {
      assert Normal(ms) == ms;
    }
    if multiset(ms) == multiset(EventMembers(names, e)) {
      forall m | m in ms ensures m.value != NegZero {
        assert m in multiset(EventMembers(names, e));
      }
    }
  }

  /** Member order carries no meaning: a permuted object decodes to the same outcome, errors included. */
  lemma OrderIrrelevant(names: seq<string>, ms: seq<Member>, ns: seq<Member>)
    requires |names| == FIELDS
    requires ValueMembers(ms) && multiset(ms) == multiset(ns)
    ensures ValueMembers(ns)
    ensures Decoded(names, Render(ns)) == Decoded(names, Render(ms))
  {
    forall i | 0 <= i < |ns| ensures IsValue(ns[i].value) {
      assert ns[i] in multiset(ms);
    }
    MembersIffRender(Render(ms), ms);
    MembersIffRender(Render(ns), ns);
    if DistinctKeys(ms) {
      DistinctPermuted(ms, ns);
      FieldsIffSameMembers(ms, ns);
    } else if DistinctKeys(ns) {
      DistinctPermuted(ns, ms);
    }
  }

  // ----------------------------------------------------------------------------------------------
  // Canonical bytes
  // ----------------------------------------------------------------------------------------------

  function NoGaps(n: nat): seq<string> { seq(n, _ => "") }

  /** json.Marshal of an event: the canonical members without whitespace. */
  function Marshal(names: seq<string>, e: PaymentEvent): string
    requires |names| == FIELDS
  {
    var toks := Render(EventMembers(names, e));
    Spaced(toks, NoGaps(|toks| + 1))
  }

  /** The text of a token list without whitespace. */
  function Text(toks: seq<Tok>): string {
    if toks == [] then "" else Spell(toks[0]) + Text(toks[1..])
  }

  lemma {:induction false} TextIsSpaced(toks: seq<Tok>)
    ensures Spaced(toks, NoGaps(|toks| + 1)) == Text(toks)
  {
    if toks == [] {
    } else {
      hide Spell;
      TextIsSpaced(toks[1..]);
      assert NoGaps(|toks| + 1)[1..] == NoGaps(|toks[1..]| + 1);
      assert "" + Spell(toks[0]) == Spell(toks[0]);
    }
  }

  /** One member with what separates it from the one before. */
  function MemberText(separator: string, name: string, value: string): string {
    separator + "\"" + name + "\":" + value
  }

  lemma TextOfMember(m: Member, tail: seq<Tok>, first: bool)
    ensures Text((if first then [] else [Comma]) + [Str(m.key), Colon, m.value] + tail) ==
            MemberText(if first then "" else ",", m.key, Spell(m.value)) + Text(tail)
  {
    hide Spell, Text, MemberText;
    var values := [m.value] + tail;
    var rest := [Colon] + values;
    var toks := [Str(m.key)] + rest;
    TextStep(m.value, tail);
    TextStep(Colon, values);
    TextStep(Str(m.key), rest);
    TextStep(Comma, toks);
    MemberSpells(m.key);
    assert [Str(m.key), Colon, m.value] + tail == toks;
    if first {
      assert [] + [Str(m.key), Colon, m.value] + tail == toks;
      assert "" + Text(toks) == Text(toks);
    } else {
      assert [Comma] + [Str(m.key), Colon, m.value] + tail == [Comma] + toks;
    }
    Joins(if first then "" else ",", "\"" + m.key + "\"", Spell(m.value), Text(tail), m.key);
  }

  lemma TextStep(t: Tok, rest: seq<Tok>)
    ensures Text([t] + rest) == Spell(t) + Text(rest)
  {
    assert ([t] + rest)[1..] == rest;
  }

  lemma MemberSpells(key: string)
    ensures Spell(Str(key)) == "\"" + key + "\"" && Spell(Colon) == ":" && Spell(Comma) == ","
  {
  }

  lemma Joins(separator: string, quoted: string, value: string, tail: string, key: string)
    requires quoted == "\"" + key + "\""
    ensures separator + (quoted + (":" + (value + tail))) == MemberText(separator, key, value) + tail
  {
    assert quoted + ":" == "\"" + key + "\":";
  }

  /** The text of an event's members from position k on. */
  lemma TextFrom(names: seq<string>, e: PaymentEvent, k: nat)
    requires |names| == FIELDS && k < FIELDS
    ensures Text(Pairs(EventMembers(names, e)[k..], k == 0)) ==
            MemberText(if k == 0 then "" else ",", names[k], Spell(FieldTok(e, k))) +
            Text(Pairs(EventMembers(names, e)[k + 1..], false))
  {
    hide Text, MemberText, Spell, FieldTok;
    var ms := EventMembers(names, e)[k..];
    assert ms[0] == Member(names[k], FieldTok(e, k));
    assert ms[1..] == EventMembers(names, e)[k + 1..];
    TextOfMember(ms[0], Pairs(ms[1..], false), k == 0);
  }

  lemma TextEnds(names: seq<string>, e: PaymentEvent)
    requires |names| == FIELDS
    ensures Text(Pairs(EventMembers(names, e)[10..], false)) == "}"
  {
    assert EventMembers(names, e)[10..] == [];
    assert [RBrace][1..] == [] && Text([]) == "";
  }

  lemma TextStarts(names: seq<string>, e: PaymentEvent)
    requires |names| == FIELDS
    ensures Marshal(names, e) == "{" + Text(Pairs(EventMembers(names, e)[0..], true))
  {
    var ms := EventMembers(names, e);
    assert ms[0..] == ms;
    TextIsSpaced(Render(ms));
    assert Render(ms)[1..] == Pairs(ms, true);
  }

  function Whole(n: int): string { if n >= 0 then Digits(n) else "-" + Digits(-n) }

  function Quoted(s: string): string { "\"" + s + "\"" }

  lemma FieldSpells(e: PaymentEvent)
    ensures Spell(FieldTok(e, 0)) == Quoted(e.eventId) && Spell(FieldTok(e, 1)) == Whole(e.amountCents)
    ensures Spell(FieldTok(e, 2)) == Quoted(e.currency) && Spell(FieldTok(e, 3)) == Whole(e.merchantCategory)
    ensures Spell(FieldTok(e, 4)) == Quoted(e.country)
    ensures Spell(FieldTok(e, 5)) == if e.cardPresent then "true" else "false"
    ensures Spell(FieldTok(e, 6)) == Whole(e.hourUtc) && Spell(FieldTok(e, 7)) == Whole(e.velocity5m)
    ensures Spell(FieldTok(e, 8)) == Whole(e.velocity1h) && Spell(FieldTok(e, 9)) == Whole(e.priorDeclines)
  {
    hide Digits;
  }

  /** The text of an event's members from position k on, member by member. */
  function TextOfFields(names: seq<string>, e: PaymentEvent, k: nat): string
    requires |names| == FIELDS && k <= FIELDS
    decreases FIELDS - k
  {
    if k == FIELDS then "}"
    else MemberText(if k == 0 then "" else ",", names[k], Spell(FieldTok(e, k))) + TextOfFields(names, e, k + 1)
  }

  lemma {:induction false} TextByFields(names: seq<string>, e: PaymentEvent, k: nat)
    requires |names| == FIELDS && k <= FIELDS
    ensures Text(Pairs(EventMembers(names, e)[k..], k == 0)) == TextOfFields(names, e, k)
    decreases FIELDS - k
  {
    if k == FIELDS {
      TextEnds(names, e);
    } else {
      hide Text, MemberText, Spell, FieldTok, EventMembers;
      TextByFields(names, e, k + 1);
      TextFrom(names, e, k);
    }
  }

  lemma FieldsUnrolled(names: seq<string>, e: PaymentEvent)
    requires |names| == FIELDS
    ensures TextOfFields(names, e, 0) ==
            MemberText("", names[0], Spell(FieldTok(e, 0))) +
            (MemberText(",", names[1], Spell(FieldTok(e, 1))) +
            (MemberText(",", names[2], Spell(FieldTok(e, 2))) +
            (MemberText(",", names[3], Spell(FieldTok(e, 3))) +
            (MemberText(",", names[4], Spell(FieldTok(e, 4))) + TextOfFields(names, e, 5)))))
    ensures TextOfFields(names, e, 5) ==
            MemberText(",", names[5], Spell(FieldTok(e, 5))) +
            (MemberText(",", names[6], Spell(FieldTok(e, 6))) +
            (MemberText(",", names[7], Spell(FieldTok(e, 7))) +
            (MemberText(",", names[8], Spell(FieldTok(e, 8))) +
            (MemberText(",", names[9], Spell(FieldTok(e, 9))) + "}"))))
  {
    hide MemberText, Spell, FieldTok;
    assert TextOfFields(names, e, 10) == "}";
    assert TextOfFields(names, e, 9) == MemberText(",", names[9], Spell(FieldTok(e, 9))) + TextOfFields(names, e, 10);
    assert TextOfFields(names, e, 8) == MemberText(",", names[8], Spell(FieldTok(e, 8))) + TextOfFields(names, e, 9);
    assert TextOfFields(names, e, 7) == MemberText(",", names[7], Spell(FieldTok(e, 7))) + TextOfFields(names, e, 8);
    assert TextOfFields(names, e, 6) == MemberText(",", names[6], Spell(FieldTok(e, 6))) + TextOfFields(names, e, 7);
    assert TextOfFields(names, e, 4) == MemberText(",", names[4], Spell(FieldTok(e, 4))) + TextOfFields(names, e, 5);
    assert TextOfFields(names, e, 3) == MemberText(",", names[3], Spell(FieldTok(e, 3))) + TextOfFields(names, e, 4);
    assert TextOfFields(names, e, 2) == MemberText(",", names[2], Spell(FieldTok(e, 2))) + TextOfFields(names, e, 3);
    assert TextOfFields(names, e, 1) == MemberText(",", names[1], Spell(FieldTok(e, 1))) + TextOfFields(names, e, 2);
  }

  /** The canonical payload, character by character: the names, their order, the quotes and the punctuation. */
  lemma MarshalShows(e: PaymentEvent)
    ensures var counts :=
              MemberText(",", "card_present", if e.cardPresent then "true" else "false") +
              (MemberText(",", "hour_utc", Whole(e.hourUtc)) +
              (MemberText(",", "velocity_5m", Whole(e.velocity5m)) +
              (MemberText(",", "velocity_1h", Whole(e.velocity1h)) +
              (MemberText(",", "prior_declines", Whole(e.priorDeclines)) + "}"))));
            Marshal(FIELD_NAMES, e) ==
            "{" +
            (MemberText("", "event_id", Quoted(e.eventId)) +
            (MemberText(",", "amount_cents", Whole(e.amountCents)) +
            (MemberText(",", "currency", Quoted(e.currency)) +
            (MemberText(",", "merchant_category", Whole(e.merchantCategory)) +
            (MemberText(",", "country", Quoted(e.country)) + counts)))))
  {
    hide Marshal, Text, MemberText, EventMembers, Spell, Whole, Quoted, TextOfFields, FieldTok;
    TextStarts(FIELD_NAMES, e);
    TextByFields(FIELD_NAMES, e, 0);
    FieldsUnrolled(FIELD_NAMES, e);
    FieldSpells(e);
  }

  ghost predicate PlainNames(names: seq<string>) {
    forall i :: 0 <= i < |names| ==> AllPlain(names[i])
  }

  lemma FieldNamesArePlain()
    ensures PlainNames(FIELD_NAMES)
  {
    var n := FIELD_NAMES;
    forall i | 0 <= i < |n| ensures AllPlain(n[i]) {
      if i < 5 { PlainFirstFive(i); } else { PlainLastFive(i); }
    }
  }

  lemma PlainFirstFive(i: nat)
    requires i < 5
    ensures AllPlain(FIELD_NAMES[i])
  {
  }

  lemma PlainLastFive(i: nat)
    requires 5 <= i < 10
    ensures AllPlain(FIELD_NAMES[i])
  {
  }

  /** The array of an event's values, however it is spaced, is scored like the event, and the gateway refuses it. */
  lemma ArrayIsScored(names: seq<string>, e: PaymentEvent, gaps: seq<string>)
    requires Schema(names) && Valid(e)
    requires |gaps| == |RenderRow(EventRow(e))| + 1 && forall i :: 0 <= i < |gaps| ==> AllSpace(gaps[i])
    ensures WorkerDecoded(names, Lex(Spaced(RenderRow(EventRow(e)), gaps))) == Some(e)
    ensures Decoded(names, Lex(Spaced(RenderRow(EventRow(e)), gaps))) == Err(InvalidJson)
  {
    RowSpellable(e);
    ItemsLexable(EventRow(e), true);
    RowLexable(EventRow(e));
    LexSpaced(RenderRow(EventRow(e)), gaps);
    WorkerAcceptsExactly(names, RenderRow(EventRow(e)), e);
  }

  ghost predicate AllSpellable(vs: seq<Tok>) { forall i :: 0 <= i < |vs| ==> IsValue(vs[i]) && Spellable(vs[i]) }

  lemma RowSpellable(e: PaymentEvent)
    requires WorkerValid(e)
    ensures AllSpellable(EventRow(e))
  {
    forall i | 0 <= i < FIELDS ensures IsValue(FieldTok(e, i)) && Spellable(FieldTok(e, i)) {
    }
  }

  lemma {:induction false} ItemsLexable(vs: seq<Tok>, first: bool)
    requires AllSpellable(vs)
    ensures Lexable(Items(vs, first)) && Items(vs, first) != []
    ensures !first || vs == [] ==> EndsValue(Items(vs, first)[0])
  {
    if vs == [] {
    } else {
      ItemsLexable(vs[1..], false);
      var head, tail := (if first then [] else [Comma]) + [vs[0]], Items(vs[1..], false);
      HeadLexable(head, tail);
    }
  }

  lemma HeadLexable(head: seq<Tok>, tail: seq<Tok>)
    requires Lexable(head) && Lexable(tail)
    requires head != [] && tail != [] && (IsNumeric(head[|head| - 1]) ==> EndsValue(tail[0]))
    ensures Lexable(head + tail)
  {
    var all := head + tail;
    forall i | 0 <= i < |all| ensures Spellable(all[i]) {
      if i >= |head| { assert all[i] == tail[i - |head|]; }
    }
    forall i | 0 <= i < |all| - 1 && IsNumeric(all[i]) ensures EndsValue(all[i + 1]) {
      if i >= |head| { assert all[i] == tail[i - |head|] && all[i + 1] == tail[i - |head| + 1]; }
    }
  }

  lemma RowLexable(vs: seq<Tok>)
    requires Lexable(Items(vs, true)) && Items(vs, true) != []
    ensures Lexable(RenderRow(vs))
  {
    HeadLexable([LBracket], Items(vs, true));
  }

  ghost predicate SpellableMembers(ms: seq<Member>) {
    forall i :: 0 <= i < |ms| ==> AllPlain(ms[i].key) && IsValue(ms[i].value) && Spellable(ms[i].value)
  }

  lemma {:induction false} PairsLexable(ms: seq<Member>, first: bool)
    requires SpellableMembers(ms)
    ensures Lexable(Pairs(ms, first)) && Pairs(ms, first) != []
    ensures !first || ms == [] ==> EndsValue(Pairs(ms, first)[0])
  {
    if ms == [] {
    } else {
      PairsLexable(ms[1..], false);
      var head := (if first then [] else [Comma]) + [Str(ms[0].key), Colon, ms[0].value];
      HeadLexable(head, Pairs(ms[1..], false));
    }
  }

  /** A flat object laid out with any insignificant whitespace reads back to its members. */
  lemma LayoutReadsBack(ms: seq<Member>, gaps: seq<string>)
    requires SpellableMembers(ms)
    requires |gaps| == |Render(ms)| + 1 && forall i :: 0 <= i < |gaps| ==> AllSpace(gaps[i])
    ensures Lex(Spaced(Render(ms), gaps)) == Render(ms)
    ensures Members(Render(ms)) == Some(ms)
  {
    PairsLexable(ms, true);
    HeadLexable([LBrace], Pairs(ms, true));
    LexSpaced(Render(ms), gaps);
    MembersIffRender(Render(ms), ms);
  }

  lemma ValidIsSpellable(names: seq<string>, e: PaymentEvent)
    requires Schema(names) && PlainNames(names) && WorkerValid(e)
    ensures SpellableMembers(EventMembers(names, e))
  {
    forall i | 0 <= i < FIELDS ensures IsValue(FieldTok(e, i)) && Spellable(FieldTok(e, i)) {
    }
  }

  /** The worker recovers from the canonical payload exactly the event the gateway decoded. */
  lemma WorkerReadsCanonical(names: seq<string>, e: PaymentEvent)
    requires Schema(names) && PlainNames(names)
    requires Valid(e)
    ensures WorkerDecoded(names, Lex(Marshal(names, e))) == Some(e)
  {
    hide WorkerDecoded, WorkerValid, Typed, EventMembers, Lex, Spaced, Render, SpellableMembers, PlainNames;
    var ms := EventMembers(names, e);
    ValidIsSpellable(names, e);
    LayoutReadsBack(ms, NoGaps(|Render(ms)| + 1));
    WorkerAcceptsExactly(names, Render(ms), e);
  }

  /** Equal canonical bytes mean equal events, in all ten fields. */
  lemma MarshalInjective(names: seq<string>, e: PaymentEvent, f: PaymentEvent)
    requires Schema(names) && PlainNames(names)
    requires Valid(e) && Valid(f)
    ensures Marshal(names, e) == Marshal(names, f) <==> e == f
  {
    WorkerReadsCanonical(names, e);
    WorkerReadsCanonical(names, f);
  }

  lemma SpellablePermuted(names: seq<string>, e: PaymentEvent, ms: seq<Member>)
    requires Schema(names) && PlainNames(names) && WorkerValid(e)
    requires multiset(ms) == multiset(EventMembers(names, e))
    ensures SpellableMembers(ms) && Normal(ms) == ms
  {
    ValidIsSpellable(names, e);
    var cs := EventMembers(names, e);
    forall i | 0 <= i < |ms| ensures ms[i] in cs {
      assert ms[i] in multiset(cs);
    }
    assert forall i :: 0 <= i < |cs| ==> !FieldTok(e, i).NegZero?;
  }

  /** However a valid event's members are ordered and spaced, the gateway decodes that event. */
  lemma FormattingIrrelevant(names: seq<string>, e: PaymentEvent, ms: seq<Member>, gaps: seq<string>)
    requires Schema(names) && PlainNames(names)
    requires Valid(e)
    requires multiset(ms) == multiset(EventMembers(names, e))
    requires |gaps| == |Render(ms)| + 1 && forall i :: 0 <= i < |gaps| ==> AllSpace(gaps[i])
    ensures Decoded(names, Lex(Spaced(Render(ms), gaps))) == Ok(e)
  {
    SpellablePermuted(names, e, ms);
    LayoutReadsBack(ms, gaps);
    GatewayAcceptsExactly(names, Render(ms), e);
  }
}
