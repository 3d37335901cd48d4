/**
  When an accepted event gets a decision of its own. A completion marker outlives the entry it was set for,
  so a later admission under the same id can be completed as a repeat and never be scored. This file says
  exactly how long the gateway has to remember ids for that not to happen.
 */
module OwnDecision {
  import opened Wrappers
  import opened Event
  import opened Keys
  import opened Ordered
  import opened Protocol
  import opened Ledger
  import opened Refinement
  import opened Safety
  import opened Lease

  /** One fault-free completion: the entry's own decision is published exactly when its id has no recent one. */
  lemma PublishesOwnExactly(cfg: Config, w: World, ticket: nat, event: PaymentEvent)
    requires Live(cfg, w) && Enabled(w, Complete(ticket, NoFault))
    requires EventOf(cfg, w.appended[w.delivered[ticket].id].Content()) == Some(event)
    ensures var v := Next(cfg, w, Complete(ticket, NoFault));
            var own := Publication(w.delivered[ticket].id, event.eventId, Decision(cfg.score(event)), w.now);
            v.published == if RecentlyPublished(cfg, Abs(w), event.eventId) then w.published else w.published + [own]
    ensures w.delivered[ticket].id !in Next(cfg, w, Complete(ticket, NoFault)).stream
  {
    Facts(cfg, w);
    var id := w.delivered[ticket].id;
    AskKnows(cfg, id, w.appended[id].Content());
    assert CompletedAgrees(cfg, w);
  }

  /** Every admitted entry is decided and removed within d milliseconds of its admission. */
  ghost predicate Prompt(w: World, d: nat) {
    && (forall id :: id in w.removed && id in w.appended ==> w.removed[id] <= w.appended[id].at + d)
    && (forall i :: 0 <= i < |w.published| && w.published[i].id in w.appended ==>
          w.published[i].at <= w.appended[w.published[i].id].at + d)
  }

  ghost predicate GatewayOnly(w: World) { forall id :: id in w.appended ==> w.appended[id].Admitted? }

  /** Every entry that has left the stream has a published decision computed from it. */
  ghost predicate AllOwn(w: World) {
    forall id :: id in w.removed ==> exists i :: 0 <= i < |w.published| && w.published[i].id == id
  }

  /** A decision computed from an admitted entry carries that entry's event id. */
  lemma DecisionsNameTheirEntry(cfg: Config, w: World, i: nat)
    requires Live(cfg, w) && i < |w.published|
    ensures w.published[i].id in w.appended
    ensures var a := w.appended[w.published[i].id]; a.Admitted? ==> a.eventId == w.published[i].eventId
  {
    hide Live, MarkersAgree, Conserved, Kept, DecisionsSpaced, AdmissionsSpaced, NothingLost, AskFor, Dated, Balanced,
         CausesFirst;
    Facts(cfg, w);
    var j := w.published[i].id;
    assert Authentic(cfg, Abs(w), Abs(w).published[i], false);
    AskKnows(cfg, j, w.appended[j].Content());
  }

  /** Two admissions of one event id less than the admission window apart are one. */
  lemma CloseIsSame(cfg: Config, w: World, i: nat, j: nat)
    requires Live(cfg, w) && i in w.appended && j in w.appended
    requires w.appended[i].Admitted? && w.appended[j].Admitted? && w.appended[i].eventId == w.appended[j].eventId
    requires w.appended[i].at < w.appended[j].at + AdmitWindow(cfg)
    requires w.appended[j].at < w.appended[i].at + AdmitWindow(cfg)
    ensures i == j
  {
    hide Live;
    if i < j { OneAdmissionPerWindow(cfg, w, i, j); }
    if j < i { OneAdmissionPerWindow(cfg, w, j, i); }
  }

  lemma RememberedLongEnough(cfg: Config, w: World, d: nat, id: nat)
    requires Live(cfg, w) && GatewayOnly(w) && Prompt(w, d)
    requires WorkWindow(cfg) + d <= AdmitWindow(cfg)
    requires id in w.removed
    ensures exists i :: 0 <= i < |w.published| && w.published[i].id == id
  {
    hide Live, MarkersAgree, Conserved, Kept, DecisionsSpaced, AdmissionsSpaced, AdmissionsReadable, NothingLost,
         AskFor;
    Facts(cfg, w);
    var l := Abs(w);
    assert id in l.appended;
    NoAcceptedEventLost(cfg, w, id);
    var t := w.removed[id];
    var i :| 0 <= i < |w.published| && w.published[i].eventId == w.appended[id].eventId &&
             w.published[i].at <= t < w.published[i].at + WorkWindow(cfg);
    var j := w.published[i].id;
    DecisionsNameTheirEntry(cfg, w, i);
    CloseIsSame(cfg, w, id, j);
  }

  ghost predicate OnlyDecision(w: World, i: nat, id: nat) {
    && i < |w.published| && w.published[i].id == id
    && forall j :: 0 <= j < |w.published| && w.published[j].id == id ==> j == i
  }

  /**
    Exactly once: with ids remembered long enough and workers that keep to the idle time, every accepted entry
    that has left the stream has one decision computed from it, and one only.
   */
  lemma DecidedExactlyOnce(cfg: Config, w: World, d: nat, id: nat)
    requires Live(cfg, w) && GatewayOnly(w) && Prompt(w, d) && WithinLease(cfg, w)
    requires cfg.reclaimMs <= WorkWindow(cfg) && WorkWindow(cfg) + d <= AdmitWindow(cfg)
    requires id in w.removed
    ensures exists i :: OnlyDecision(w, i, id)
  {
    hide Live, GatewayOnly, Prompt, WithinLease;
    RememberedLongEnough(cfg, w, d, id);
    var i :| 0 <= i < |w.published| && w.published[i].id == id;
    forall j | 0 <= j < |w.published| && w.published[j].id == id ensures j == i {
      if i < j { DecidedOncePerEntry(cfg, w, i, j); }
      if j < i { DecidedOncePerEntry(cfg, w, j, i); }
    }
    assert OnlyDecision(w, i, id);
  }

  // ----------------------------------------------------------------------------------------------
  // The bound is tight
  // ----------------------------------------------------------------------------------------------

  function Sample(cents: nat): PaymentEvent {
    PaymentEvent("order-1", cents, "USD", 5812, "US", true, 12, 1, 2, 0)
  }

  lemma SampleValid(cents: nat)
    requires cents < 100
    ensures Valid(Sample(cents))
  {
  }

  lemma ReadsOne(w: World, owner: string, id: nat)
    requires w.group.Some? && Undelivered(w) == {id}
    ensures ReadGroup(w, owner, 1) == Deliver(w, [id], owner).(group := Some(id))
  {
    assert Min({id}) == id;
    assert FirstK({id}, 1) == [id] + FirstK({id} - {id}, 0);
    assert ReadIds(w, 1) == [id];
  }

  /** The first event is admitted at 0. */
  ghost function Opened(cfg: Config): World {
    Next(cfg, Next(cfg, Start(0), Submit(Sample(1), NoFault)), CreateGroup)
  }

  lemma OpenedState(cfg: Config)
    requires Configured(cfg) && WireContract(cfg)
    ensures Live(cfg, Opened(cfg))
    ensures Opened(cfg) == Start(0).(
              markers := map[IdempotencyKey(cfg.stream, "order-1") :=
                  Marker(cfg.digest(cfg.encode(Sample(1))), AdmitWindow(cfg))],
              stream := map[1 := Entry(Some("order-1"), Some(cfg.encode(Sample(1))))],
              appended := map[1 := Admitted("order-1", cfg.encode(Sample(1)), 0)],
              lastId := 1,
              group := Some(0))
  {
    hide Valid;
    SampleValid(1);
    assert Start(0) == Run(cfg, Start(0), []);
    StepsStayLive(cfg, Start(0), Submit(Sample(1), NoFault));
    StepsStayLive(cfg, Next(cfg, Start(0), Submit(Sample(1), NoFault)), CreateGroup);
  }

  /** It is delivered d milliseconds later. */
  ghost function HandedOut(cfg: Config, d: nat): World {
    Next(cfg, Next(cfg, Opened(cfg), Pass(d)), Read("worker", 1))
  }

  lemma HandedOutState(cfg: Config, d: nat)
    requires Configured(cfg) && WireContract(cfg)
    ensures Live(cfg, HandedOut(cfg, d))
    ensures HandedOut(cfg, d) == Tick(Opened(cfg), d).(
              group := Some(1),
              pending := map[1 := Nack("worker", d)],
              delivered := [Delivery(1, "worker", d)])
  {
    hide Live;
    OpenedState(cfg);
    var w := Tick(Opened(cfg), d);
    assert w == Next(cfg, Opened(cfg), Pass(d));
    StepsStayLive(cfg, Opened(cfg), Pass(d));
    StepsStayLive(cfg, w, Read("worker", 1));
    assert Undelivered(w) == {1};
    ReadsOne(w, "worker", 1);
    assert SetOf([1]) == {1};
    var v := Deliver(w, [1], "worker");
    assert v.delivered == [Delivery(1, "worker", d)];
    assert v.pending == map[1 := Nack("worker", d)];
  }

  /** And decided at once. */
  ghost function DecidedLate(cfg: Config, d: nat): World {
    Next(cfg, HandedOut(cfg, d), Complete(0, NoFault))
  }

  ghost predicate DecidedShape(cfg: Config, d: nat, w: World) {
    && w.now == d && w.stream == map[] && w.pending == map[] && w.lastId == 1 && w.group == Some(1)
    && w.appended == map[1 := Admitted("order-1", cfg.encode(Sample(1)), 0)]
    && w.removed == map[1 := d]
    && |w.delivered| == 1
    && |w.published| == 1 && w.published[0].id == 1 && w.published[0].at == d
    && CompletedKey(cfg.stream, "order-1") in w.markers
    && w.markers[CompletedKey(cfg.stream, "order-1")].expires == d + WorkWindow(cfg)
    && (IdempotencyKey(cfg.stream, "order-1") in w.markers ==>
          w.markers[IdempotencyKey(cfg.stream, "order-1")].expires == AdmitWindow(cfg))
  }

  lemma DecidedShaped(cfg: Config, d: nat, w: World)
    requires WireContract(cfg) && WorkWindow(cfg) > 0
    requires w.now == d && w.group == Some(1) && w.lastId == 1 && w.removed == map[] && w.published == []
    requires w.pending.Keys == {1} && w.delivered == [Delivery(1, "worker", d)]
    requires w.stream == map[1 := Entry(Some("order-1"), Some(cfg.encode(Sample(1))))]
    requires w.appended == map[1 := Admitted("order-1", cfg.encode(Sample(1)), 0)]
    requires CompletedKey(cfg.stream, "order-1") !in w.markers
    requires var key := IdempotencyKey(cfg.stream, "order-1");
             key in w.markers ==> w.markers[key].expires == AdmitWindow(cfg)
    ensures DecidedShape(cfg, d, Next(cfg, w, Complete(0, NoFault)))
  {
    hide Valid, AskFor, IdempotencyKey, CompletedKey, Sample;
    FamiliesDisjoint(cfg.stream, "order-1", "order-1");
    SampleAsk(cfg, w.appended[1].Content(), 1, 1);
    var ask := AskFor(cfg, 1, w.appended[1].Content());
    assert Next(cfg, w, Complete(0, NoFault)) == FinishAsk(cfg, w, 0, ask, NoFault).world;
    assert w.stream - {1} == map[] && w.pending - {1} == map[];
  }

  lemma DecidedLateState(cfg: Config, d: nat)
    requires Configured(cfg) && WireContract(cfg)
    ensures Live(cfg, DecidedLate(cfg, d))
    ensures DecidedShape(cfg, d, DecidedLate(cfg, d))
  {
    hide Live, Next, DecidedShape, Sample, IdempotencyKey, CompletedKey, Opened, HandedOut;
    OpenedState(cfg);
    HandedOutState(cfg, d);
    StepsStayLive(cfg, HandedOut(cfg, d), Complete(0, NoFault));
    FamiliesDisjoint(cfg.stream, "order-1", "order-1");
    DecidedShaped(cfg, d, HandedOut(cfg, d));
  }

  lemma SampleAsk(cfg: Config, entry: Entry, id: nat, cents: nat)
    requires WireContract(cfg) && cents < 100
    requires entry == Entry(Some("order-1"), Some(cfg.encode(Sample(cents))))
    ensures !AskFor(cfg, id, entry).dead && AskFor(cfg, id, entry).id == id
    ensures AskFor(cfg, id, entry).eventId == "order-1"
    ensures AskFor(cfg, id, entry).key == CompletedKey(cfg.stream, "order-1")
  {
    SampleValid(cents);
    AskKnows(cfg, id, entry);
    assert EventOf(cfg, entry) == Some(Sample(cents));
  }

  /** A second event under the same id, admitted as soon as the first is forgotten. */
  ghost function Readmitted(cfg: Config, d: nat): World
    requires d <= AdmitWindow(cfg)
  {
    Next(cfg, Next(cfg, DecidedLate(cfg, d), Pass(AdmitWindow(cfg) - d)), Submit(Sample(2), NoFault))
  }

  ghost predicate ReadmittedShape(cfg: Config, d: nat, w: World) {
    && w.now == AdmitWindow(cfg) && w.group == Some(1) && w.lastId > 1
    && w.stream == map[w.lastId := Entry(Some("order-1"), Some(cfg.encode(Sample(2))))]
    && w.pending == map[] && |w.delivered| == 1 && w.removed == map[1 := d]
    && w.appended == map[1 := Admitted("order-1", cfg.encode(Sample(1)), 0),
                         w.lastId := Admitted("order-1", cfg.encode(Sample(2)), AdmitWindow(cfg))]
    && |w.published| == 1 && w.published[0].id == 1 && w.published[0].at == d
    && CompletedKey(cfg.stream, "order-1") in w.markers
  }

  lemma ForgottenState(cfg: Config, d: nat, w: World)
    requires DecidedShape(cfg, d, w)
    requires d <= AdmitWindow(cfg) < d + WorkWindow(cfg)
    ensures var v := Tick(w, AdmitWindow(cfg) - d);
            && v == w.(now := AdmitWindow(cfg), markers := v.markers)
            && IdempotencyKey(cfg.stream, "order-1") !in v.markers
            && CompletedKey(cfg.stream, "order-1") in v.markers
  {
    hide IdempotencyKey, CompletedKey;
  }

  lemma SubmitSample(cfg: Config, v: World)
    requires Configured(cfg) && v.stream == map[]
    requires IdempotencyKey(cfg.stream, "order-1") !in v.markers
    ensures var u := Next(cfg, v, Submit(Sample(2), NoFault));
            && u == v.(markers := u.markers, lastId := NextId(v),
                       stream := map[NextId(v) := Entry(Some("order-1"), Some(cfg.encode(Sample(2))))],
                       appended := v.appended[NextId(v) := Admitted("order-1", cfg.encode(Sample(2)), v.now)])
            && forall key :: key in v.markers ==> key in u.markers
  {
    SampleValid(2);
    hide Valid;
  }

  lemma PassIsTick(cfg: Config, w: World, ms: nat)
    ensures Next(cfg, w, Pass(ms)) == Tick(w, ms)
  {
  }

  lemma ReadmittedState(cfg: Config, d: nat)
    requires Configured(cfg) && WireContract(cfg)
    requires d <= AdmitWindow(cfg) < d + WorkWindow(cfg)
    ensures Live(cfg, Readmitted(cfg, d)) && ReadmittedShape(cfg, d, Readmitted(cfg, d))
  {
    hide Live, Valid, IdempotencyKey, CompletedKey, DecidedLate, Next, Sample;
    DecidedLateState(cfg, d);
    var w := DecidedLate(cfg, d);
    var ms := AdmitWindow(cfg) - d;
    ForgottenState(cfg, d, w);
    var v := Tick(w, ms);
    PassIsTick(cfg, w, ms);
    StepsStayLive(cfg, w, Pass(ms));
    SubmitSample(cfg, v);
    StepsStayLive(cfg, v, Submit(Sample(2), NoFault));
    assert NextId(v) > 1;
  }

  /** It is read and completed at once. */
  ghost function Swallowed(cfg: Config, d: nat): World
    requires d <= AdmitWindow(cfg)
  {
    Next(cfg, Next(cfg, Readmitted(cfg, d), Read("worker", 1)), Complete(1, NoFault))
  }

  lemma SwallowedState(cfg: Config, d: nat)
    requires Configured(cfg) && WireContract(cfg)
    requires d <= AdmitWindow(cfg) < d + WorkWindow(cfg)
    ensures Live(cfg, Swallowed(cfg, d))
    ensures GatewayOnly(Swallowed(cfg, d)) && Prompt(Swallowed(cfg, d), d) && !AllOwn(Swallowed(cfg, d))
  {
    hide Live, Next, Readmitted, GatewayOnly, Prompt, AllOwn, ReadmittedShape;
    ReadmittedState(cfg, d);
    var w := Readmitted(cfg, d);
    StepsStayLive(cfg, w, Read("worker", 1));
    StepsStayLive(cfg, Next(cfg, w, Read("worker", 1)), Complete(1, NoFault));
    ReadAgain(cfg, d, w);
    SwallowedBy(cfg, d, w, Next(cfg, w, Read("worker", 1)));
  }

  /** The second entry is handed out. */
  lemma ReadAgain(cfg: Config, d: nat, w: World)
    requires ReadmittedShape(cfg, d, w)
    ensures Next(cfg, w, Read("worker", 1)) == Deliver(w, [w.lastId], "worker").(group := Some(w.lastId))
  {
    assert Undelivered(w) == {w.lastId};
    ReadsOne(w, "worker", w.lastId);
  }

  /** Its completion is taken for a repeat. */
  lemma SwallowedBy(cfg: Config, d: nat, w: World, v: World)
    requires WireContract(cfg) && ReadmittedShape(cfg, d, w)
    requires v == Deliver(w, [w.lastId], "worker").(group := Some(w.lastId))
    ensures var u := Next(cfg, v, Complete(1, NoFault)); GatewayOnly(u) && Prompt(u, d) && !AllOwn(u)
  {
    hide Valid, AskFor, CompletedKey, IdempotencyKey, Sample, FinishAsk;
    var id := w.lastId;
    assert v.delivered[1] == Delivery(id, "worker", w.now);
    SampleAsk(cfg, v.appended[id].Content(), id, 2);
    var ask := AskFor(cfg, id, v.appended[id].Content());
    RepeatFinish(cfg, v, 1, ask);
    var u := Next(cfg, v, Complete(1, NoFault));
    assert u == FinishAsk(cfg, v, 1, ask, NoFault).world;
    assert u.removed == map[1 := d, id := AdmitWindow(cfg)];
    assert id in u.removed;
  }

  lemma RepeatFinish(cfg: Config, w: World, ticket: nat, ask: Ask)
    requires ask.key in w.markers && ask.id in w.stream
    ensures var u := FinishAsk(cfg, w, ticket, ask, NoFault).world;
            && u.published == w.published && u.appended == w.appended && u.now == w.now
            && u.removed == w.removed[ask.id := w.now]
  {
  }

  /** In every reachable state of a gateway-fed system whose workers take at most d, all decisions are own ones. */
  ghost predicate NeverSwallows(cfg: Config, d: nat) {
    forall w :: Live(cfg, w) && GatewayOnly(w) && Prompt(w, d) ==> AllOwn(w)
  }

  /**
    Every accepted event gets its own decision, in all runs that handle each within d milliseconds, exactly
    when the gateway remembers an id for d longer than the workers do.
   */
  lemma NeverSwallowsExactly(cfg: Config, d: nat)
    requires Configured(cfg) && WireContract(cfg)
    ensures NeverSwallows(cfg, d) <==> WorkWindow(cfg) + d <= AdmitWindow(cfg)
  {
    if WorkWindow(cfg) + d <= AdmitWindow(cfg) {
      forall w | Live(cfg, w) && GatewayOnly(w) && Prompt(w, d) ensures AllOwn(w) {
        forall id | id in w.removed ensures exists i :: 0 <= i < |w.published| && w.published[i].id == id {
          RememberedLongEnough(cfg, w, d, id);
        }
      }
    } else {
      var late := if d <= AdmitWindow(cfg) then d else AdmitWindow(cfg);
      SwallowedState(cfg, late);
      assert Prompt(Swallowed(cfg, late), d);
    }
  }

  /** With one retention setting for both services, any delay at all lets an accepted event be swallowed. */
  lemma EqualWindowsSwallow(cfg: Config, d: nat)
    requires Configured(cfg) && WireContract(cfg)
    requires cfg.admitTtl == cfg.workTtl && d > 0
    ensures !NeverSwallows(cfg, d)
  {
    NeverSwallowsExactly(cfg, d);
  }

  // ----------------------------------------------------------------------------------------------
  // Entries that no gateway wrote
  // ----------------------------------------------------------------------------------------------

  /** What somebody else writes under the id of an event. */
  function Forged(cfg: Config): Entry { Entry(Some("order-1"), Some(cfg.encode(Sample(1)))) }

  /** It is written, delivered and decided at once. */
  ghost function ForgedDecided(cfg: Config): World {
    var written := Next(cfg, Next(cfg, Start(0), CreateGroup), Write(Forged(cfg)));
    Next(cfg, Next(cfg, written, Read("worker", 1)), Complete(0, NoFault))
  }

  ghost predicate ForgedShape(cfg: Config, w: World) {
    && w.now == 0 && w.stream == map[] && w.pending == map[] && w.lastId == 1 && w.group == Some(1)
    && w.appended == map[1 := Foreign(Forged(cfg), 0)] && w.removed == map[1 := 0]
    && |w.delivered| == 1 && |w.published| == 1 && w.published[0].id == 1 && w.published[0].at == 0
    && CompletedKey(cfg.stream, "order-1") in w.markers
    && IdempotencyKey(cfg.stream, "order-1") !in w.markers
  }

  lemma ForgedWritten(cfg: Config)
    ensures var w := Next(cfg, Next(cfg, Start(0), CreateGroup), Write(Forged(cfg)));
            && Undelivered(w) == {1}
            && w == Start(0).(stream := map[1 := Forged(cfg)], appended := map[1 := Foreign(Forged(cfg), 0)],
                              lastId := 1, group := Some(0))
  {
  }

  lemma ForgedTaken(cfg: Config)
    ensures var written := Next(cfg, Next(cfg, Start(0), CreateGroup), Write(Forged(cfg)));
            Next(cfg, written, Read("worker", 1)) ==
            written.(group := Some(1), pending := map[1 := Nack("worker", 0)], delivered := [Delivery(1, "worker", 0)])
  {
    ForgedWritten(cfg);
    var written := Next(cfg, Next(cfg, Start(0), CreateGroup), Write(Forged(cfg)));
    ReadsOne(written, "worker", 1);
    assert SetOf([1]) == {1};
  }

  lemma ForgedFinished(cfg: Config, w: World)
    requires WireContract(cfg) && WorkWindow(cfg) > 0
    requires w == Start(0).(
               stream := map[1 := Forged(cfg)], appended := map[1 := Foreign(Forged(cfg), 0)], lastId := 1,
               group := Some(1), pending := map[1 := Nack("worker", 0)], delivered := [Delivery(1, "worker", 0)])
    ensures ForgedShape(cfg, Next(cfg, w, Complete(0, NoFault)))
  {
    hide Valid, AskFor, IdempotencyKey, CompletedKey, Sample;
    FamiliesDisjoint(cfg.stream, "order-1", "order-1");
    SampleAsk(cfg, Forged(cfg), 1, 1);
    var ask := AskFor(cfg, 1, Forged(cfg));
    assert Next(cfg, w, Complete(0, NoFault)) == FinishAsk(cfg, w, 0, ask, NoFault).world;
    assert w.stream - {1} == map[] && w.pending - {1} == map[];
  }

  lemma ForgedState(cfg: Config)
    requires Configured(cfg) && WireContract(cfg)
    ensures Live(cfg, ForgedDecided(cfg)) && ForgedShape(cfg, ForgedDecided(cfg))
  {
    hide Live, Next, ForgedShape, Forged, WireContract;
    var started := Next(cfg, Start(0), CreateGroup);
    var written := Next(cfg, started, Write(Forged(cfg)));
    var taken := Next(cfg, written, Read("worker", 1));
    StartLive(cfg);
    StepsStayLive(cfg, Start(0), CreateGroup);
    StepsStayLive(cfg, started, Write(Forged(cfg)));
    StepsStayLive(cfg, written, Read("worker", 1));
    StepsStayLive(cfg, taken, Complete(0, NoFault));
    ForgedWritten(cfg);
    ForgedTaken(cfg);
    ForgedFinished(cfg, taken);
  }

  lemma StartLive(cfg: Config)
    requires Configured(cfg) && WireContract(cfg)
    ensures Live(cfg, Start(0))
  {
    assert Start(0) == Run(cfg, Start(0), []);
  }

  /** Then the event itself is accepted, delivered and completed. */
  ghost function ForgedSwallowed(cfg: Config): World {
    var accepted := Next(cfg, ForgedDecided(cfg), Submit(Sample(2), NoFault));
    Next(cfg, Next(cfg, accepted, Read("worker", 1)), Complete(1, NoFault))
  }

  /** The accepted event is handed out. */
  ghost predicate SecondTaken(cfg: Config, w: World) {
    && w.now == 0 && |w.delivered| == 2 && w.delivered[1] == Delivery(2, "worker", 0)
    && w.stream == map[2 := Entry(Some("order-1"), Some(cfg.encode(Sample(2))))]
    && w.appended == map[1 := Foreign(Forged(cfg), 0), 2 := Admitted("order-1", cfg.encode(Sample(2)), 0)]
    && w.removed == map[1 := 0] && |w.published| == 1 && w.published[0].id == 1 && w.published[0].at == 0
    && CompletedKey(cfg.stream, "order-1") in w.markers
  }

  lemma SecondAccepted(cfg: Config, w: World)
    requires Configured(cfg) && ForgedShape(cfg, w)
    ensures SecondTaken(cfg, Next(cfg, Next(cfg, w, Submit(Sample(2), NoFault)), Read("worker", 1)))
  {
    hide IdempotencyKey, CompletedKey, Forged, Sample;
    SubmitSample(cfg, w);
    var accepted := Next(cfg, w, Submit(Sample(2), NoFault));
    assert NextId(w) == 2;
    SecondRead(cfg, accepted);
  }

  lemma SecondRead(cfg: Config, w: World)
    requires w.group == Some(1) && w.stream.Keys == {2}
    ensures Next(cfg, w, Read("worker", 1)) == Deliver(w, [2], "worker").(group := Some(2))
  {
    assert Undelivered(w) == {2};
    ReadsOne(w, "worker", 2);
  }

  lemma CompletedUnscored(cfg: Config, v: World)
    requires WireContract(cfg) && SecondTaken(cfg, v)
    ensures var u := Next(cfg, v, Complete(1, NoFault));
            && Prompt(u, 0) && 2 in u.appended && u.appended[2].Admitted? && 2 in u.removed
            && forall i :: 0 <= i < |u.published| ==> u.published[i].id != 2
  {
    hide Valid, AskFor, IdempotencyKey, CompletedKey, Sample, FinishAsk;
    SampleAsk(cfg, v.appended[2].Content(), 2, 2);
    var ask := AskFor(cfg, 2, v.appended[2].Content());
    RepeatFinish(cfg, v, 1, ask);
    assert Next(cfg, v, Complete(1, NoFault)) == FinishAsk(cfg, v, 1, ask, NoFault).world;
  }

  /**
    Against a readable entry that no gateway wrote, no retention time helps: an event accepted after it under the
    same id can be completed at once and never be scored.
   */
  lemma ForgedSwallows(cfg: Config)
    requires Configured(cfg) && WireContract(cfg)
    ensures var w := ForgedSwallowed(cfg);
            && Live(cfg, w) && Prompt(w, 0) && !AllOwn(w)
            && 2 in w.appended && w.appended[2].Admitted? && 2 in w.removed
            && forall i :: 0 <= i < |w.published| ==> w.published[i].id != 2
  {
    hide Live, Next, Prompt, ForgedShape, ForgedDecided, SecondTaken;
    ForgedState(cfg);
    var w := ForgedDecided(cfg);
    var accepted := Next(cfg, w, Submit(Sample(2), NoFault));
    StepsStayLive(cfg, w, Submit(Sample(2), NoFault));
    StepsStayLive(cfg, accepted, Read("worker", 1));
    StepsStayLive(cfg, Next(cfg, accepted, Read("worker", 1)), Complete(1, NoFault));
    SecondAccepted(cfg, w);
    CompletedUnscored(cfg, Next(cfg, accepted, Read("worker", 1)));
  }
}
