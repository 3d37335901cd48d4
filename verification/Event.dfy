/**
  The payment event, the limits each service puts on it, and the members that spell it.
  Strings are byte strings: one character per byte, as both services measure them.
 */
module Event {
  import opened Json

  datatype PaymentEvent = PaymentEvent(
    eventId: string,
    amountCents: int,
    currency: string,
    merchantCategory: int,
    country: string,
    cardPresent: bool,
    hourUtc: int,
    velocity5m: int,
    velocity1h: int,
    priorDeclines: int)

  const FIELD_NAMES: seq<string> := [
    "event_id", "amount_cents", "currency", "merchant_category", "country",
    "card_present", "hour_utc", "velocity_5m", "velocity_1h", "prior_declines"]

  const INT64_MAX: int := 0x7FFF_FFFF_FFFF_FFFF
  const INT32_MAX: int := 0x7FFF_FFFF

  predicate FitsInt64(n: int) { -INT64_MAX - 1 <= n <= INT64_MAX }

  predicate FitsInt32(n: int) { -INT32_MAX - 1 <= n <= INT32_MAX }

  /** The ranges the field types themselves impose in both services. */
  predicate Typed(e: PaymentEvent) {
    && FitsInt64(e.amountCents)
    && FitsInt32(e.merchantCategory)
    && FitsInt32(e.hourUtc)
    && FitsInt32(e.velocity5m)
    && FitsInt32(e.velocity1h)
    && FitsInt32(e.priorDeclines)
  }

  predicate IsIdByte(c: char) {
    'a' <= c <= 'z' || 'A' <= c <= 'Z' || '0' <= c <= '9' || c in "_-.:"
  }

  predicate IsUpperCode(s: string, n: nat) {
    |s| == n && forall i :: 0 <= i < |s| ==> 'A' <= s[i] <= 'Z'
  }

  /** The worker's own check on an event it has parsed. */
  predicate WorkerValid(e: PaymentEvent) {
    && e.eventId != []
    && |e.eventId| <= 128
    && (forall i :: 0 <= i < |e.eventId| ==> IsIdByte(e.eventId[i]))
    && e.amountCents >= 0
    && IsUpperCode(e.currency, 3)
    && IsUpperCode(e.country, 2)
    && 0 <= e.merchantCategory <= 9999
    && 0 <= e.hourUtc <= 23
    && e.velocity5m >= 0
    && e.velocity1h >= 0
    && e.priorDeclines >= 0
  }

  /** An event both services can hold and both accept. */
  predicate Valid(e: PaymentEvent) { Typed(e) && WorkerValid(e) }

  // ----------------------------------------------------------------------------------------------
  // The ten fields by position. Lemmas take the names as a parameter, so that no proof but one has to
  // look inside the name strings.
  // ----------------------------------------------------------------------------------------------

  const FIELDS: nat := 10

  ghost predicate Schema(names: seq<string>) {
    |names| == FIELDS && forall i, j :: 0 <= i < j < FIELDS ==> names[i] != names[j]
  }

  datatype Kind = Text | Flag | Long | Short

  function FieldKind(i: nat): Kind {
    if i == 0 || i == 2 || i == 4 then Text else if i == 5 then Flag else if i == 1 then Long else Short
  }

  /** The canonical token of the field at position i. */
  function FieldTok(e: PaymentEvent, i: nat): Tok {
    match i
    case 0 => Str(e.eventId)
    case 1 => Num(e.amountCents)
    case 2 => Str(e.currency)
    case 3 => Num(e.merchantCategory)
    case 4 => Str(e.country)
    case 5 => if e.cardPresent then True else False
    case 6 => Num(e.hourUtc)
    case 7 => Num(e.velocity5m)
    case 8 => Num(e.velocity1h)
    case _ => Num(e.priorDeclines)
  }

  /** The canonical members, in the order of the struct. */
  function EventMembers(names: seq<string>, e: PaymentEvent): seq<Member>
    requires |names| == FIELDS
  {
    seq(FIELDS, i requires 0 <= i < FIELDS => Member(names[i], FieldTok(e, i)))
  }

  /** The ten values alone. */
  function EventRow(e: PaymentEvent): seq<Tok> {
    seq(FIELDS, i requires 0 <= i < FIELDS => FieldTok(e, i))
  }

  lemma FieldNamesAreSchema()
    ensures Schema(FIELD_NAMES)
  {
    var n := FIELD_NAMES;
    assert |n[0]| == 8 && |n[1]| == 12 && |n[2]| == 8 && |n[3]| == 17 && |n[4]| == 7;
    assert |n[5]| == 12 && |n[6]| == 8 && |n[7]| == 11 && |n[8]| == 11 && |n[9]| == 14;
    assert n[0][0] == 'e' && n[2][0] == 'c' && n[6][0] == 'h';
    assert n[1][0] == 'a' && n[5][0] == 'c';
    assert n[7][9] == '5' && n[8][9] == '1';
  }

  lemma SameFields(e: PaymentEvent, f: PaymentEvent)
    requires forall i :: 0 <= i < FIELDS ==> FieldTok(e, i) == FieldTok(f, i)
    ensures e == f
  {
    assert FieldTok(e, 0) == FieldTok(f, 0) && FieldTok(e, 1) == FieldTok(f, 1) && FieldTok(e, 2) == FieldTok(f, 2);
    assert FieldTok(e, 3) == FieldTok(f, 3) && FieldTok(e, 4) == FieldTok(f, 4) && FieldTok(e, 5) == FieldTok(f, 5);
    assert FieldTok(e, 6) == FieldTok(f, 6) && FieldTok(e, 7) == FieldTok(f, 7) && FieldTok(e, 8) == FieldTok(f, 8);
    assert FieldTok(e, 9) == FieldTok(f, 9);
  }

  // ----------------------------------------------------------------------------------------------
  // Members as a set of fields
  // ----------------------------------------------------------------------------------------------

  ghost predicate DistinctKeys(ms: seq<Member>) {
    forall i, j :: 0 <= i < j < |ms| ==> ms[i].key != ms[j].key
  }

  function FieldsOf(ms: seq<Member>): map<string, Tok> {
    if ms == [] then map[] else FieldsOf(ms[..|ms| - 1])[ms[|ms| - 1].key := ms[|ms| - 1].value]
  }

  /** Every member is among the fields, every field is a member's, and no two members share one. */
  ghost predicate FieldsMatch(ms: seq<Member>, f: map<string, Tok>) {
    && (forall i :: 0 <= i < |ms| ==> ms[i].key in f && f[ms[i].key] == ms[i].value)
    && (forall k :: k in f ==> KeyIn(ms, k))
    && |f| == |ms|
  }

  ghost predicate KeyIn(ms: seq<Member>, k: string) {
    exists i :: 0 <= i < |ms| && ms[i].key == k
  }

  lemma MatchOneMore(ms: seq<Member>, m: Member, f: map<string, Tok>)
    requires FieldsMatch(ms, f) && !KeyIn(ms, m.key)
    ensures FieldsMatch(ms + [m], f[m.key := m.value])
  {
    var all, g := ms + [m], f[m.key := m.value];
    forall k | k in g ensures KeyIn(all, k) {
      if k == m.key {
        assert all[|ms|].key == k;
      } else {
        var i :| 0 <= i < |ms| && ms[i].key == k;
        assert all[i].key == k;
      }
    }
    assert m.key !in f;
    forall i | 0 <= i < |all| ensures all[i].key in g && g[all[i].key] == all[i].value {
      if i < |ms| { assert all[i] == ms[i] && ms[i].key != m.key; }
    }
  }

  lemma {:induction false} FieldsMatched(ms: seq<Member>)
    requires DistinctKeys(ms)
    ensures FieldsMatch(ms, FieldsOf(ms))
  {
    if ms == [] {
    } else {
      hide FieldsMatch;
      var n := |ms| - 1;
      FieldsMatched(ms[..n]);
      assert !KeyIn(ms[..n], ms[n].key);
      MatchOneMore(ms[..n], ms[n], FieldsOf(ms[..n]));
      assert ms == ms[..n] + [ms[n]];
    }
  }

  lemma FieldsHold(ms: seq<Member>)
    requires DistinctKeys(ms)
    ensures forall i :: 0 <= i < |ms| ==> ms[i].key in FieldsOf(ms) && FieldsOf(ms)[ms[i].key] == ms[i].value
    ensures forall k :: k in FieldsOf(ms) ==> exists i :: 0 <= i < |ms| && ms[i].key == k
    ensures |FieldsOf(ms)| == |ms|
  {
    hide FieldsOf;
    FieldsMatched(ms);
  }

  /** With distinct keys the fields are determined by, and determine, the collection of members. */
  lemma FieldsIffSameMembers(ms: seq<Member>, ns: seq<Member>)
    requires DistinctKeys(ms) && DistinctKeys(ns)
    ensures FieldsOf(ms) == FieldsOf(ns) <==> multiset(ms) == multiset(ns)
  {
    FieldsHold(ms);
    FieldsHold(ns);
    if multiset(ms) == multiset(ns) {
      FieldsFromMembers(ms, ns);
    }
    if FieldsOf(ms) == FieldsOf(ns) {
      forall m ensures multiset(ms)[m] == multiset(ns)[m] {
        Multiplicity(ms, m);
        Multiplicity(ns, m);
        InFields(ms, m);
        InFields(ns, m);
      }
    }
  }

  lemma FieldsWithin(ms: seq<Member>, ns: seq<Member>, k: string)
    requires DistinctKeys(ms) && DistinctKeys(ns)
    requires multiset(ms) == multiset(ns)
    requires k in FieldsOf(ms)
    ensures k in FieldsOf(ns) && FieldsOf(ns)[k] == FieldsOf(ms)[k]
  {
    var m := Member(k, FieldsOf(ms)[k]);
    InFields(ms, m);
    InFields(ns, m);
    assert m in multiset(ms) <==> m in multiset(ns);
  }

  lemma FieldsFromMembers(ms: seq<Member>, ns: seq<Member>)
    requires DistinctKeys(ms) && DistinctKeys(ns)
    requires multiset(ms) == multiset(ns)
    ensures FieldsOf(ms) == FieldsOf(ns)
  {
    forall k | k in FieldsOf(ms) ensures k in FieldsOf(ns) && FieldsOf(ns)[k] == FieldsOf(ms)[k] {
      FieldsWithin(ms, ns, k);
    }
    forall k | k in FieldsOf(ns) ensures k in FieldsOf(ms) {
      FieldsWithin(ns, ms, k);
    }
  }

  lemma InFields(ms: seq<Member>, m: Member)
    requires DistinctKeys(ms)
    ensures m in ms <==> m.key in FieldsOf(ms) && FieldsOf(ms)[m.key] == m.value
  {
    FieldsHold(ms);
    if m.key in FieldsOf(ms) && FieldsOf(ms)[m.key] == m.value {
      var i :| 0 <= i < |ms| && ms[i].key == m.key;
      assert ms[i] == m;
    }
  }

  lemma {:induction false} Multiplicity(ms: seq<Member>, m: Member)
    requires DistinctKeys(ms)
    ensures multiset(ms)[m] == if m in ms then 1 else 0
  {
    if ms == [] {
    } else {
      var n := |ms| - 1;
      Multiplicity(ms[..n], m);
      assert ms == ms[..n] + [ms[n]];
      assert ms[n] !in ms[..n];
    }
  }

  /** Permuting the members keeps the keys distinct. */
  lemma DistinctPermuted(ms: seq<Member>, ns: seq<Member>)
    requires DistinctKeys(ms)
    requires multiset(ms) == multiset(ns)
    ensures DistinctKeys(ns)
  {
    forall i, j | 0 <= i < j < |ns| && ns[i].key == ns[j].key ensures false {
      assert ns[i] in multiset(ns) && ns[j] in multiset(ns);
      assert ns[i] in ms && ns[j] in ms;
      var a :| 0 <= a < |ms| && ms[a] == ns[i];
      var b :| 0 <= b < |ms| && ms[b] == ns[j];
      assert a == b;
      Multiplicity(ms, ns[i]);
      TwiceAtLeast(ns, i, j);
    }
  }

  lemma TwiceAtLeast(ns: seq<Member>, i: nat, j: nat)
    requires i < j < |ns| && ns[i] == ns[j]
    ensures multiset(ns)[ns[i]] >= 2
  {
    assert ns == ns[..i] + [ns[i]] + ns[i + 1..j] + [ns[j]] + ns[j + 1..];
  }

  // ----------------------------------------------------------------------------------------------
  // Fields as an event
  // ----------------------------------------------------------------------------------------------

  function NumberOf(t: Tok): int {
    if t.Num? then t.n else 0
  }

  function TextOf(t: Tok): string {
    if t.Str? then t.text else ""
  }

  predicate HasAllFields(names: seq<string>, f: map<string, Tok>) {
    |names| == FIELDS && forall i :: 0 <= i < FIELDS ==> names[i] in f
  }

  /** The event with the given values, in the order of the struct. */
  function BuildRow(vs: seq<Tok>): PaymentEvent
    requires |vs| == FIELDS
  {
    PaymentEvent(
      TextOf(vs[0]), NumberOf(vs[1]), TextOf(vs[2]), NumberOf(vs[3]), TextOf(vs[4]),
      vs[5] == True, NumberOf(vs[6]), NumberOf(vs[7]), NumberOf(vs[8]), NumberOf(vs[9]))
  }

  /** The event whose fields have the given values. */
  function Build(names: seq<string>, f: map<string, Tok>): PaymentEvent
    requires HasAllFields(names, f)
  {
    BuildRow(seq(FIELDS, i requires 0 <= i < FIELDS => f[names[i]]))
  }

  // ----------------------------------------------------------------------------------------------
  // The fields of an event
  // ----------------------------------------------------------------------------------------------

  /** f holds the canonical value of every field of e. */
  ghost predicate Holds(names: seq<string>, f: map<string, Tok>, e: PaymentEvent) {
    HasAllFields(names, f) && forall i :: 0 <= i < FIELDS ==> f[names[i]] == FieldTok(e, i)
  }

  lemma EventFields(names: seq<string>, e: PaymentEvent)
    requires Schema(names)
    ensures DistinctKeys(EventMembers(names, e))
    ensures Holds(names, FieldsOf(EventMembers(names, e)), e)
    ensures |FieldsOf(EventMembers(names, e))| == FIELDS
    ensures forall k :: k in FieldsOf(EventMembers(names, e)) ==> k in names
  {
    var ms := EventMembers(names, e);
    FieldsHold(ms);
    forall i | 0 <= i < FIELDS
      ensures names[i] in FieldsOf(ms) && FieldsOf(ms)[names[i]] == FieldTok(e, i)
    {
      assert ms[i].key == names[i];
    }
  }

  lemma SameSizeSubset<T>(a: set<T>, b: set<T>)
    requires a <= b && |a| == |b|
    ensures a == b
  {
    assert b == a + (b - a);
    assert |b| == |a| + |b - a|;
  }

  /** A map with ten keys that holds an event's fields is the map of that event's members. */
  lemma HoldsExactly(names: seq<string>, f: map<string, Tok>, e: PaymentEvent)
    requires Schema(names)
    ensures Holds(names, f, e) && |f| == FIELDS <==> f == FieldsOf(EventMembers(names, e))
  {
    EventFields(names, e);
    var g := FieldsOf(EventMembers(names, e));
    if Holds(names, f, e) && |f| == FIELDS {
      assert g.Keys <= f.Keys;
      SameSizeSubset(g.Keys, f.Keys);
      forall k | k in g ensures f[k] == g[k] {
        var i :| 0 <= i < |names| && names[i] == k;
      }
    }
  }
}
