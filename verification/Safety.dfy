/** What holds in every state that any run of the whole system can reach. */
module Safety {
  import opened Wrappers
  import opened Event
  import opened Keys
  import opened Protocol
  import opened Ledger
  import opened Refinement

  /** A well-configured system and a state some run of it reaches. */
  ghost predicate Live(cfg: Config, w: World) {
    Configured(cfg) && WireContract(cfg) && Reachable(cfg, w)
  }

  lemma Facts(cfg: Config, w: World)
    requires Live(cfg, w)
    ensures Coupled(cfg, w) && Kept(cfg, Abs(w))
    ensures Dated(Abs(w)) && Balanced(Abs(w)) && CausesFirst(Abs(w)) && NothingLost(cfg, Abs(w))
    ensures AdmissionsSpaced(cfg, Abs(w)) && DecisionsSpaced(cfg, Abs(w))
    ensures LogsAuthentic(cfg, Abs(w)) && AdmissionsReadable(cfg, Abs(w))
    ensures Conserved(w) && MarkersAgree(cfg, w)
  {
    ReachableCoupled(cfg, w);
  }

  lemma AgreesOnIds(cfg: Config, w: World)
    requires Live(cfg, w)
    ensures IdempotencyAgrees(cfg, w)
  {
    hide CompletedAgrees, RejectedAgrees, IdempotencyAgrees, Conserved, Kept;
    ReachableCoupled(cfg, w);
  }

  /** How the stream, the pending list and what was appended relate. */
  lemma Shape(cfg: Config, w: World)
    requires Live(cfg, w)
    ensures Conserved(w) && Balanced(Abs(w))
  {
    hide MarkersAgree, Conserved, Balanced;
    ReachableCoupled(cfg, w);
  }

  lemma StepsStayLive(cfg: Config, w: World, step: Step)
    requires Live(cfg, w)
    ensures Live(cfg, Next(cfg, w, step))
  {
    var start: nat, steps: seq<Step> :| w == Run(cfg, Start(start), steps);
    assert (steps + [step])[..|steps|] == steps;
    assert Next(cfg, w, step) == Run(cfg, Start(start), steps + [step]);
  }

  lemma {:induction false} RunsStayLive(cfg: Config, w: World, steps: seq<Step>)
    requires Live(cfg, w)
    ensures Live(cfg, Run(cfg, w, steps))
  {
    hide Live;
    if steps == [] {
    } else {
      RunsStayLive(cfg, w, steps[..|steps| - 1]);
      StepsStayLive(cfg, Run(cfg, w, steps[..|steps| - 1]), steps[|steps| - 1]);
    }
  }

  lemma FinishUnexpired(cfg: Config, w: World, ticket: nat, ask: Ask, fault: Fault)
    requires Unexpired(w) && WorkWindow(cfg) > 0
    ensures Unexpired(FinishAsk(cfg, w, ticket, ask, fault).world)
  {
  }

  lemma AdmitUnexpired(cfg: Config, w: World, eventId: string, payload: string, fault: Fault)
    requires Unexpired(w) && AdmitWindow(cfg) > 0
    ensures Unexpired(Admit(cfg, w, eventId, payload, fault).world)
  {
  }

  lemma NextUnexpired(cfg: Config, w: World, step: Step)
    requires Unexpired(w) && Configured(cfg)
    ensures Unexpired(Next(cfg, w, step))
  {
    hide AskFor, FinishAsk, Admit;
    if !Enabled(w, step) {
    } else if step.Submit? {
      AdmitUnexpired(cfg, w, step.event.eventId, cfg.encode(step.event), step.fault);
    } else if step.Complete? {
      var id := w.delivered[step.ticket].id;
      FinishUnexpired(cfg, w, step.ticket, AskFor(cfg, id, w.appended[id].Content()), step.fault);
    }
  }

  lemma {:induction false} RunUnexpired(cfg: Config, now: nat, steps: seq<Step>)
    requires Configured(cfg)
    ensures Unexpired(Run(cfg, Start(now), steps))
  {
    if steps == [] {
    } else {
      hide Next, Unexpired;
      RunUnexpired(cfg, now, steps[..|steps| - 1]);
      NextUnexpired(cfg, Run(cfg, Start(now), steps[..|steps| - 1]), steps[|steps| - 1]);
    }
  }

  lemma LiveUnexpired(cfg: Config, w: World)
    requires Live(cfg, w)
    ensures Unexpired(w)
  {
    var start: nat, steps: seq<Step> :| w == Run(cfg, Start(start), steps);
    RunUnexpired(cfg, start, steps);
  }

  // ----------------------------------------------------------------------------------------------
  // Nothing accepted is lost
  // ----------------------------------------------------------------------------------------------

  /**
    Every accepted event is still in the stream, unchanged, or left it at a moment when a decision for its
    id was being published or had been published less than the worker window before.
   */
  lemma NoAcceptedEventLost(cfg: Config, w: World, id: nat)
    requires Live(cfg, w)
    requires id in w.appended && w.appended[id].Admitted?
    ensures (id in w.stream) != (id in w.removed)
    ensures id in w.stream ==> w.stream[id] == Entry(Some(w.appended[id].eventId), Some(w.appended[id].payload))
    ensures id in w.removed ==> DecidedAt(cfg, Abs(w), w.appended[id].eventId, w.removed[id])
  {
    Facts(cfg, w);
    if id in w.removed {
      assert id in Abs(w).removed && SettledAt(cfg, Abs(w), id, w.removed[id]);
      AskKnows(cfg, id, w.appended[id].Content());
    }
  }

  /** Two decisions for one event id are at least the worker window apart, whoever published them. */
  lemma OneDecisionPerWindow(cfg: Config, w: World, i: nat, j: nat)
    requires Live(cfg, w)
    requires i < j < |w.published| && w.published[i].eventId == w.published[j].eventId
    ensures w.published[i].at + WorkWindow(cfg) <= w.published[j].at
  {
    Facts(cfg, w);
    assert DecisionsSpaced(cfg, Abs(w));
  }

  /** Two admissions of one event id are at least the admission window apart. */
  lemma OneAdmissionPerWindow(cfg: Config, w: World, i: nat, j: nat)
    requires Live(cfg, w)
    requires i in w.appended && j in w.appended && i < j
    requires w.appended[i].Admitted? && w.appended[j].Admitted? && w.appended[i].eventId == w.appended[j].eventId
    ensures w.appended[i].at + AdmitWindow(cfg) <= w.appended[j].at
  {
    Facts(cfg, w);
    assert AdmissionsSpaced(cfg, Abs(w));
  }

  /** What admission appended never reaches the dead-letter stream. */
  lemma AdmittedNeverDeadLettered(cfg: Config, w: World, i: nat)
    requires Live(cfg, w)
    requires i < |w.rejected|
    ensures w.rejected[i].id in w.appended && w.appended[w.rejected[i].id].Foreign?
  {
    Facts(cfg, w);
    var p := w.rejected[i];
    assert Authentic(cfg, Abs(w), Abs(w).rejected[i], true);
    AskKnows(cfg, p.id, w.appended[p.id].Content());
  }

  lemma Bounded(cfg: Config, w: World)
    requires Live(cfg, w)
    ensures |AdmittedUnfinished(Abs(w))| <= cfg.maxQueue
  {
    hide MarkersAgree, Conserved;
    ReachableCoupled(cfg, w);
  }

  /** Admitted work waiting in the stream never exceeds the limit, however many gateways share it. */
  lemma AdmittedWorkBounded(cfg: Config, w: World)
    requires Live(cfg, w)
    ensures |AdmittedUnfinished(Abs(w))| <= cfg.maxQueue
    ensures (forall id :: id in w.stream ==> id in w.appended && w.appended[id].Admitted?) ==>
            |w.stream| <= cfg.maxQueue
  {
    Bounded(cfg, w);
    if forall id :: id in w.stream ==> id in w.appended && w.appended[id].Admitted? {
      assert AdmittedUnfinished(Abs(w)) == w.stream.Keys;
    }
  }

  /** The stream is the disjoint union of what nobody was given yet and what is pending with one owner. */
  lemma StreamIsUnfinishedWork(cfg: Config, w: World)
    requires Live(cfg, w)
    ensures w.stream.Keys == Undelivered(w) + w.pending.Keys && Undelivered(w) !! w.pending.Keys
    ensures w.stream.Keys + w.removed.Keys == w.appended.Keys && w.stream.Keys !! w.removed.Keys
  {
    hide Live;
    Shape(cfg, w);
    Partition(w);
    forall id ensures id in w.appended.Keys <==> id in w.stream.Keys + w.removed.Keys {
      assert id in Abs(w).appended <==> id in Abs(w).unfinished || id in Abs(w).removed;
    }
  }

  lemma GroupMovesForward(cfg: Config, w: World, step: Step)
    requires w.group.Some?
    ensures Next(cfg, w, step).group.Some? && w.group.value <= Next(cfg, w, step).group.value
  {
    if step.Read? && ReadIds(w, step.count) != [] {
      ReadTakes(w, step.count);
    }
  }

  /** Once created, the group is never reset: creating it again after any failure cannot redeliver finished ranges. */
  lemma {:induction false} GroupNeverReset(cfg: Config, w: World, steps: seq<Step>)
    requires w.group.Some?
    ensures Run(cfg, w, steps).group.Some? && w.group.value <= Run(cfg, w, steps).group.value
    ensures EnsureGroup(Run(cfg, w, steps)) == Run(cfg, w, steps)
  {
    if steps == [] {
    } else {
      hide Next;
      GroupNeverReset(cfg, w, steps[..|steps| - 1]);
      GroupMovesForward(cfg, Run(cfg, w, steps[..|steps| - 1]), steps[|steps| - 1]);
    }
  }

  lemma Partition(w: World)
    requires Conserved(w)
    ensures w.stream.Keys == Undelivered(w) + w.pending.Keys && Undelivered(w) !! w.pending.Keys
  {
    if w.group.None? {
      assert Undelivered(w) == w.stream.Keys;
    } else {
      assert Undelivered(w) + w.pending.Keys == w.stream.Keys;
    }
  }

  // ----------------------------------------------------------------------------------------------
  // Retries and conflicts
  // ----------------------------------------------------------------------------------------------

  lemma EncodeInjective(cfg: Config, e: PaymentEvent, f: PaymentEvent)
    requires WireContract(cfg) && Valid(e) && Valid(f) && cfg.encode(e) == cfg.encode(f)
    ensures e == f
  {
    assert cfg.decode(cfg.encode(e)) == Some(e);
    assert cfg.decode(cfg.encode(f)) == Some(f);
  }

  /**
    Within the admission window of an accepted event, a submission under its id changes nothing, whatever
    the queue length and whatever would have failed, and is answered as a duplicate exactly when all ten
    fields agree with the accepted ones, as a conflict otherwise.
   */
  lemma RetryAnswered(cfg: Config, w: World, id: nat, e: PaymentEvent, again: PaymentEvent, fault: Fault)
    requires Live(cfg, w) && InjectiveDigest(cfg)
    requires Valid(e) && Valid(again) && again.eventId == e.eventId
    requires id in w.appended && w.appended[id] == Admitted(e.eventId, cfg.encode(e), w.appended[id].at)
    requires w.now < w.appended[id].at + AdmitWindow(cfg)
    ensures Admit(cfg, w, again.eventId, cfg.encode(again), fault) ==
            AdmitOutcome(w, if again == e then Duplicate else Conflict)
  {
    AgreesOnIds(cfg, w);
    var key := IdempotencyKey(cfg.stream, e.eventId);
    assert key in w.markers && w.markers[key].value == cfg.digest(cfg.encode(e));
    if again != e && cfg.digest(cfg.encode(again)) == cfg.digest(cfg.encode(e)) {
      EncodeInjective(cfg, e, again);
    }
  }

  /** Outside every window, a fault-free submission to a queue with room is accepted: the exact complement. */
  lemma AcceptedExactly(cfg: Config, w: World, e: PaymentEvent, fault: Fault)
    requires Live(cfg, w) && Valid(e)
    ensures Admit(cfg, w, e.eventId, cfg.encode(e), fault).reply.Added? <==>
            !RecentlyAdmitted(cfg, Abs(w), e.eventId) && fault == NoFault && |w.stream| < cfg.maxQueue
  {
    AgreesOnIds(cfg, w);
  }

  lemma SubmitAdds(cfg: Config, w: World, e: PaymentEvent)
    requires Valid(e)
    requires Admit(cfg, w, e.eventId, cfg.encode(e), NoFault).reply.Added?
    ensures var u := Next(cfg, w, Submit(e, NoFault));
            NextId(w) in u.appended && u.appended[NextId(w)] == Admitted(e.eventId, cfg.encode(e), w.now)
  {
  }

  /** From acceptance on, through any run that stays inside the window, the answer to a retry never changes. */
  lemma RetryAnsweredThroughout(cfg: Config, w: World, steps: seq<Step>, e: PaymentEvent, fault: Fault)
    requires Live(cfg, w) && InjectiveDigest(cfg) && Valid(e)
    requires Admit(cfg, w, e.eventId, cfg.encode(e), NoFault).reply.Added?
    requires Run(cfg, Next(cfg, w, Submit(e, NoFault)), steps).now < w.now + AdmitWindow(cfg)
    ensures var v := Run(cfg, Next(cfg, w, Submit(e, NoFault)), steps);
            Admit(cfg, v, e.eventId, cfg.encode(e), fault) == AdmitOutcome(v, Duplicate)
  {
    hide Live, Next, Admit, Valid, InjectiveDigest, Run;
    var u := Next(cfg, w, Submit(e, NoFault));
    SubmitAdds(cfg, w, e);
    StepsStayLive(cfg, w, Submit(e, NoFault));
    RunsStayLive(cfg, u, steps);
    HistoryGrows(cfg, u, steps);
    RetryAnswered(cfg, Run(cfg, u, steps), NextId(w), e, e, fault);
  }

  lemma NextIdUnused(cfg: Config, w: World)
    requires Live(cfg, w)
    ensures NextId(w) !in w.appended
  {
    hide Live, Conserved;
    Shape(cfg, w);
    NextIdFresh(w);
  }

  lemma FinishAppendsNothing(cfg: Config, w: World, ticket: nat, ask: Ask, fault: Fault)
    ensures FinishAsk(cfg, w, ticket, ask, fault).world.appended == w.appended
  {
  }

  lemma AppendedStays(cfg: Config, w: World, step: Step)
    requires NextId(w) !in w.appended
    ensures forall id :: id in w.appended ==>
              id in Next(cfg, w, step).appended && Next(cfg, w, step).appended[id] == w.appended[id]
  {
    hide AskFor, FinishAsk;
    if step.Complete? && Enabled(w, step) {
      var id := w.delivered[step.ticket].id;
      FinishAppendsNothing(cfg, w, step.ticket, AskFor(cfg, id, w.appended[id].Content()), step.fault);
    }
  }

  lemma {:induction false} HistoryGrows(cfg: Config, w: World, steps: seq<Step>)
    requires Live(cfg, w)
    ensures forall id :: id in w.appended ==>
              id in Run(cfg, w, steps).appended && Run(cfg, w, steps).appended[id] == w.appended[id]
  {
    hide Live;
    if steps == [] {
    } else {
      var before := steps[..|steps| - 1];
      HistoryGrows(cfg, w, before);
      RunsStayLive(cfg, w, before);
      NextIdUnused(cfg, Run(cfg, w, before));
      AppendedStays(cfg, Run(cfg, w, before), steps[|steps| - 1]);
    }
  }

  // ----------------------------------------------------------------------------------------------
  // Poisoned entries
  // ----------------------------------------------------------------------------------------------

  /** Two states that agree on everything but one entry of the stream and of the pending list. */
  ghost predicate SameButEntry(w: World, v: World, id: nat) {
    && v.now == w.now && v.lastId == w.lastId && v.group == w.group && v.appended == w.appended
    && v.delivered == w.delivered && v.stream == w.stream - {id} && v.pending == w.pending - {id}
  }

  /**
    Dead-lettering an entry, whatever event id it claims, leaves every event's markers with their values and expiry
    times, the decision log and every other entry exactly as they were; completing a readable entry leaves every
    rejection marker, every idempotency marker, the completion markers of all other events, the dead-letter log and
    every other entry.
   */
  lemma DeadLettersDoNotInterfere(cfg: Config, w: World, ticket: nat, fault: Fault)
    requires Enabled(w, Complete(ticket, fault))
    ensures var v := Next(cfg, w, Complete(ticket, fault));
            var id := w.delivered[ticket].id;
            var event := EventOf(cfg, w.appended[id].Content());
            && (v == w || SameButEntry(w, v, id))
            && (forall e :: SameAt(w, v, IdempotencyKey(cfg.stream, e)))
            && (forall e :: event.None? || e != event.value.eventId ==> SameAt(w, v, CompletedKey(cfg.stream, e)))
            && (forall i: nat :: event.Some? || i != id ==> SameAt(w, v, RejectedKey(cfg.stream, IdText(i))))
            && (if event.None? then v.published == w.published else v.rejected == w.rejected)
  {
    hide AskFor, FinishAsk, EventOf, SameAt, IdempotencyKey, CompletedKey, RejectedKey, IdText;
    var id := w.delivered[ticket].id;
    AskKnows(cfg, id, w.appended[id].Content());
    FinishTouchesOneMarker(cfg, w, ticket, AskFor(cfg, id, w.appended[id].Content()), fault);
    KeyFamilies(cfg.stream);
  }

  lemma FinishTouchesOneMarker(cfg: Config, w: World, ticket: nat, ask: Ask, fault: Fault)
    ensures var v := FinishAsk(cfg, w, ticket, ask, fault).world;
            && (v == w || SameButEntry(w, v, ask.id))
            && (forall key :: key != ask.key ==> SameAt(w, v, key))
            && (if ask.dead then v.published == w.published else v.rejected == w.rejected)
  {
  }
}
