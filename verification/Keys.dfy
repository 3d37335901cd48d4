/**
  The names under which the two services keep things in Redis: the marker key families, the text of a
  stream identifier, and when the configured stream names stay clear of all of them.
 */
module Keys {
  import opened Decimal

  function IdempotencyKey(stream: string, eventId: string): string { stream + ":idempotency:" + eventId }

  function CompletedKey(stream: string, eventId: string): string { stream + ":completed:" + eventId }

  function RejectedKey(stream: string, entryId: string): string { stream + ":rejected:" + entryId }

  function DeadKey(result: string): string { result + ":dead" }

  /** Sequence numbers per millisecond: an identifier is a 128-bit number, milliseconds then sequence. */
  const SEQUENCE_SPAN: nat := 0x1_0000_0000_0000_0000

  function IdText(id: nat): string {
    Digits(id / SEQUENCE_SPAN) + "-" + Digits(id % SEQUENCE_SPAN)
  }

  lemma SuffixOfEqual(prefix: string, a: string, b: string)
    requires prefix + a == prefix + b
    ensures a == b
  {
    assert a == (prefix + a)[|prefix|..];
    assert b == (prefix + b)[|prefix|..];
  }

  /** Within one family, different ids have different keys, whatever characters the ids contain. */
  lemma FamiliesInjective(stream: string, a: string, b: string)
    ensures IdempotencyKey(stream, a) == IdempotencyKey(stream, b) ==> a == b
    ensures CompletedKey(stream, a) == CompletedKey(stream, b) ==> a == b
    ensures RejectedKey(stream, a) == RejectedKey(stream, b) ==> a == b
  {
    if IdempotencyKey(stream, a) == IdempotencyKey(stream, b) { SuffixOfEqual(stream + ":idempotency:", a, b); }
    if CompletedKey(stream, a) == CompletedKey(stream, b) { SuffixOfEqual(stream + ":completed:", a, b); }
    if RejectedKey(stream, a) == RejectedKey(stream, b) { SuffixOfEqual(stream + ":rejected:", a, b); }
  }

  /** No key belongs to two families, even for ids that contain colons or imitate a prefix. */
  lemma FamiliesDisjoint(stream: string, a: string, b: string)
    ensures IdempotencyKey(stream, a) != CompletedKey(stream, b)
    ensures IdempotencyKey(stream, a) != RejectedKey(stream, b)
    ensures CompletedKey(stream, a) != RejectedKey(stream, b)
  {
    var at := |stream| + 1;
    assert IdempotencyKey(stream, a)[at] == 'i';
    assert CompletedKey(stream, a)[at] == 'c' && CompletedKey(stream, b)[at] == 'c';
    assert RejectedKey(stream, b)[at] == 'r';
  }

  lemma IdTextInjective(m: nat, n: nat)
    requires IdText(m) == IdText(n)
    ensures m == n
  {
    hide Digits;
    var p, q := Digits(m / SEQUENCE_SPAN), Digits(n / SEQUENCE_SPAN);
    var u, v := Digits(m % SEQUENCE_SPAN), Digits(n % SEQUENCE_SPAN);
    DigitsValue(m / SEQUENCE_SPAN);
    DigitsValue(n / SEQUENCE_SPAN);
    DashSplits(p, u, q, v);
    DigitsInjective(m / SEQUENCE_SPAN, n / SEQUENCE_SPAN);
    DigitsInjective(m % SEQUENCE_SPAN, n % SEQUENCE_SPAN);
  }

  /** Digits, a dash and anything else can be taken apart in one way only. */
  lemma DashSplits(p: string, u: string, q: string, v: string)
    requires AllDigits(p) && AllDigits(q)
    requires p + "-" + u == q + "-" + v
    ensures p == q && u == v
  {
    hide AllDigits, DigitSpan;
    var s := p + "-" + u;
    assert s == p + ("-" + u) && s == q + ("-" + v);
    DigitSpanOf(p, "-" + u);
    DigitSpanOf(q, "-" + v);
    assert p == s[..|p|] && q == s[..|q|];
    SuffixOfEqual(p + "-", u, v);
  }

  /** Milliseconds come first, then the sequence number. */
  lemma IdTextShows(ms: nat, sequence: nat)
    requires sequence < 0x1_0000_0000_0000_0000
    ensures IdText(ms * 0x1_0000_0000_0000_0000 + sequence) == Digits(ms) + "-" + Digits(sequence)
  {
    hide Digits;
    assert (ms * SEQUENCE_SPAN + sequence) / SEQUENCE_SPAN == ms;
    assert (ms * SEQUENCE_SPAN + sequence) % SEQUENCE_SPAN == sequence;
  }

  lemma SampleIdText()
    ensures IdText(1700 * 0x1_0000_0000_0000_0000 + 3) == "1700-3"
  {
    hide IdText, Digits;
    IdTextShows(1700, 3);
    SampleDigits();
    assert "1700" + "-" + "3" == "1700-3";
  }

  lemma SampleDigits()
    ensures Digits(1700) == "1700" && Digits(3) == "3"
  {
    DigitsPush(1, 7);
    DigitsPush(17, 0);
    DigitsPush(170, 0);
    assert Digits(1) == "1";
  }

  /** The names as they appear in Redis. */
  lemma KeyTexts()
    ensures IdempotencyKey("payment_events", "order-1") == "payment_events:idempotency:order-1"
    ensures CompletedKey("payment_events", "order-1") == "payment_events:completed:order-1"
    ensures RejectedKey("payment_events", "1700-3") == "payment_events:rejected:1700-3"
    ensures DeadKey("risk_decisions") == "risk_decisions:dead"
  {
    hide CompletedKey, RejectedKey, DeadKey;
    CompletedText();
    RejectedText();
    DeadText();
  }

  lemma CompletedText()
    ensures CompletedKey("payment_events", "order-1") == "payment_events:completed:order-1"
  {
  }

  lemma RejectedText()
    ensures RejectedKey("payment_events", "1700-3") == "payment_events:rejected:1700-3"
  {
  }

  lemma DeadText()
    ensures DeadKey("risk_decisions") == "risk_decisions:dead"
  {
  }

  /** All keys of the three families at once, for proofs about the marker map. */
  lemma KeyFamilies(stream: string)
    ensures forall a, b :: IdempotencyKey(stream, a) == IdempotencyKey(stream, b) ==> a == b
    ensures forall a, b :: CompletedKey(stream, a) == CompletedKey(stream, b) ==> a == b
    ensures forall m: nat, n: nat :: RejectedKey(stream, IdText(m)) == RejectedKey(stream, IdText(n)) ==> m == n
    ensures forall a, b :: IdempotencyKey(stream, a) != CompletedKey(stream, b)
    ensures forall a, b :: IdempotencyKey(stream, a) != RejectedKey(stream, b)
    ensures forall a, b :: CompletedKey(stream, a) != RejectedKey(stream, b)
  {
    forall a, b
      ensures IdempotencyKey(stream, a) == IdempotencyKey(stream, b) ==> a == b
    {
      FamiliesInjective(stream, a, b);
    }
    forall a, b
      ensures CompletedKey(stream, a) == CompletedKey(stream, b) ==> a == b
    {
      FamiliesInjective(stream, a, b);
    }
    forall m: nat, n: nat
      ensures RejectedKey(stream, IdText(m)) == RejectedKey(stream, IdText(n)) ==> m == n
    {
      if RejectedKey(stream, IdText(m)) == RejectedKey(stream, IdText(n)) {
        FamiliesInjective(stream, IdText(m), IdText(n));
        IdTextInjective(m, n);
      }
    }
    forall a, b ensures IdempotencyKey(stream, a) != CompletedKey(stream, b) { FamiliesDisjoint(stream, a, b); }
    forall a, b ensures IdempotencyKey(stream, a) != RejectedKey(stream, b) { FamiliesDisjoint(stream, a, b); }
    forall a, b ensures CompletedKey(stream, a) != RejectedKey(stream, b) { FamiliesDisjoint(stream, a, b); }
  }

  // ----------------------------------------------------------------------------------------------
  // Stream names
  // ----------------------------------------------------------------------------------------------

  /** No stream shares its name with another stream or with any marker key. */
  ghost predicate KeyspaceSeparated(stream: string, result: string) {
    && stream != result && stream != DeadKey(result)
    && (forall id :: IdempotencyKey(stream, id) != result && IdempotencyKey(stream, id) != DeadKey(result))
    && (forall id :: CompletedKey(stream, id) != result && CompletedKey(stream, id) != DeadKey(result))
    && (forall id :: RejectedKey(stream, id) != result && RejectedKey(stream, id) != DeadKey(result))
  }

  /** The check both services make at startup. */
  predicate NamesChecked(stream: string, result: string) { stream != result }

  /** A check on the two names that is exactly what separation needs. */
  predicate NamesSafe(stream: string, result: string) {
    && NamesChecked(stream, result)
    && stream != DeadKey(result)
    && !(IdempotencyKey(stream, "") <= DeadKey(result))
    && !(CompletedKey(stream, "") <= DeadKey(result))
    && !(RejectedKey(stream, "") <= DeadKey(result))
  }

  lemma NamesSafeExactly(stream: string, result: string)
    ensures NamesSafe(stream, result) <==> KeyspaceSeparated(stream, result)
  {
    var dead := DeadKey(result);
    assert result <= dead;
    var i, c, r := IdempotencyKey(stream, ""), CompletedKey(stream, ""), RejectedKey(stream, "");
    forall id ensures IdempotencyKey(stream, id) == i + id && CompletedKey(stream, id) == c + id &&
        RejectedKey(stream, id) == r + id {
    }
    hide IdempotencyKey, CompletedKey, RejectedKey, DeadKey;
    FamilyHits(i, result, dead);
    FamilyHits(c, result, dead);
    FamilyHits(r, result, dead);
  }

  /** Some key of a family is the name, or extends it, exactly when the longer name extends the family's prefix. */
  lemma FamilyHits(prefix: string, name: string, longer: string)
    requires name <= longer
    ensures prefix <= longer <==> exists id :: prefix + id == name || prefix + id == longer
  {
    if prefix <= longer {
      assert prefix + longer[|prefix|..] == longer;
    }
    if id :| prefix + id == name || prefix + id == longer {
      assert prefix <= prefix + id;
    }
  }

  /** The startup check lets through a pair whose dead-letter stream is the input stream itself. */
  lemma CheckedNamesMayCollide()
    ensures NamesChecked("risk:dead", "risk") && !KeyspaceSeparated("risk:dead", "risk")
  {
    assert DeadKey("risk") == "risk:dead";
  }
}
