/** Who holds an entry, for how long, and how often it can be finished and decided. */
module Lease {
  import opened Ordered
  import opened Protocol
  import opened Ledger
  import opened Refinement
  import opened Safety

  /** The pending list carries the latest delivery, and deliveries of one entry are a full idle time apart. */
  ghost predicate Leased(cfg: Config, w: World) {
    && (forall id :: id in w.pending ==> w.pending[id].deliveredAt <= w.now)
    && (forall k :: 0 <= k < |w.delivered| ==> w.delivered[k].at <= w.now)
    && (forall k :: 0 <= k < |w.delivered| && w.delivered[k].id in w.pending ==>
          w.delivered[k].at <= w.pending[w.delivered[k].id].deliveredAt)
    && (forall i, j :: 0 <= i < j < |w.delivered| && w.delivered[i].id == w.delivered[j].id ==>
          w.delivered[i].at + cfg.reclaimMs <= w.delivered[j].at)
  }

  /** A finished entry is gone, and was delivered only before it was finished. */
  ghost predicate Closed(w: World) {
    && (forall c :: 0 <= c < |w.completed| ==>
          && w.completed[c].ticket < |w.delivered|
          && w.delivered[w.completed[c].ticket].id == w.completed[c].id
          && w.completed[c].at <= w.now
          && w.completed[c].id !in w.stream && w.completed[c].id !in w.pending)
    && (forall c, k :: 0 <= c < |w.completed| && 0 <= k < |w.delivered| && w.delivered[k].id == w.completed[c].id ==>
          w.delivered[k].at <= w.completed[c].at)
  }

  /** Delivering to a new owner entries whose last delivery is a full idle time ago, or that had none. */
  lemma DeliverLeases(cfg: Config, w: World, ids: seq<nat>, owner: string)
    requires Leased(cfg, w) && Closed(w) && Ascending(ids)
    requires forall id :: id in SetOf(ids) ==> id in w.stream
    requires forall id, k :: id in SetOf(ids) && 0 <= k < |w.delivered| && w.delivered[k].id == id ==>
               w.delivered[k].at + cfg.reclaimMs <= w.now
    ensures Leased(cfg, Deliver(w, ids, owner)) && Closed(Deliver(w, ids, owner))
  {
    var v := Deliver(w, ids, owner);
    var n := |w.delivered|;
    forall k | n <= k < |v.delivered| ensures v.delivered[k] == Delivery(ids[k - n], owner, w.now) &&
        v.delivered[k].id in SetOf(ids) {
    }
    forall k | 0 <= k < n ensures v.delivered[k] == w.delivered[k] {
    }
    assert forall c :: 0 <= c < |v.completed| ==> v.completed[c].id !in SetOf(ids);
  }

  lemma ReadLeases(cfg: Config, w: World, owner: string, count: nat)
    requires Leased(cfg, w) && Closed(w) && Conserved(w)
    ensures Leased(cfg, ReadGroup(w, owner, count)) && Closed(ReadGroup(w, owner, count))
  {
    var ids := ReadIds(w, count);
    if w.group.Some? && ids != [] {
      FirstKLowest(Undelivered(w), count);
      FirstKAscending(Undelivered(w), count);
      DeliverLeases(cfg, w, ids, owner);
    }
  }

  lemma ClaimLeases(cfg: Config, w: World, owner: string, cursor: nat, count: nat)
    requires Leased(cfg, w) && Closed(w) && Conserved(w)
    ensures Leased(cfg, AutoClaim(cfg, w, owner, cursor, count)) && Closed(AutoClaim(cfg, w, owner, cursor, count))
  {
    if w.group.Some? {
      ClaimScanWithin(cfg, w, FromCursor(w, cursor), count, ATTEMPTS_PER_CLAIM * count);
      var ids := ClaimIds(cfg, w, cursor, count).claimed;
      forall id | id in SetOf(ids) ensures id in w.stream {
        assert id in w.pending.Keys;
      }
      DeliverLeases(cfg, w, ids, owner);
    }
  }

  /** v is w after a completion record c, with the entry taken out of stream and pending list. */
  ghost predicate ClosedBy(w: World, v: World, c: Completion) {
    && v.now == w.now && v.delivered == w.delivered && v.completed == w.completed + [c]
    && v.stream == w.stream - {c.id} && v.pending == w.pending - {c.id}
  }

  lemma ClosingLeases(cfg: Config, w: World, v: World, c: Completion)
    requires Leased(cfg, w) && Closed(w) && ClosedBy(w, v, c)
    requires c.ticket < |w.delivered| && w.delivered[c.ticket].id == c.id && c.at == w.now
    ensures Leased(cfg, v) && Closed(v)
  {
  }

  lemma FinishCloses(cfg: Config, w: World, ticket: nat, ask: Ask, fault: Fault)
    ensures var v := FinishAsk(cfg, w, ticket, ask, fault).world;
            var repeated := ask.key in w.markers;
            if !repeated && fault != NoFault then v == w
            else ClosedBy(w, v, Completion(ticket, ask.id, w.now, !repeated, ask.dead))
  {
  }

  lemma FinishLeases(cfg: Config, w: World, ticket: nat, ask: Ask, fault: Fault)
    requires Leased(cfg, w) && Closed(w)
    requires ticket < |w.delivered| && w.delivered[ticket].id == ask.id
    ensures Leased(cfg, FinishAsk(cfg, w, ticket, ask, fault).world) &&
            Closed(FinishAsk(cfg, w, ticket, ask, fault).world)
  {
    hide FinishAsk;
    FinishCloses(cfg, w, ticket, ask, fault);
    var repeated := ask.key in w.markers;
    if repeated || fault == NoFault {
      ClosingLeases(cfg, w, FinishAsk(cfg, w, ticket, ask, fault).world,
          Completion(ticket, ask.id, w.now, !repeated, ask.dead));
    }
  }

  lemma AppendLeases(cfg: Config, w: World, v: World, a: Appended)
    requires Leased(cfg, w) && Closed(w) && Conserved(w)
    requires v == Append(w, a).(markers := v.markers)
    ensures Leased(cfg, v) && Closed(v)
  {
    forall c | 0 <= c < |w.completed| ensures w.completed[c].id != NextId(w) {
      assert w.completed[c].id in w.appended;
    }
  }

  lemma NextLeases(cfg: Config, w: World, step: Step)
    requires Leased(cfg, w) && Closed(w) && Conserved(w)
    ensures var v := Next(cfg, w, step); Leased(cfg, v) && Closed(v)
  {
    hide Leased, Closed, Conserved;
    if !Enabled(w, step) {
    } else if step.Pass? {
      TickLeases(cfg, w, step.ms);
    } else if step.Submit? {
      var e := step.event;
      var v := Next(cfg, w, step);
      if Admit(cfg, w, e.eventId, cfg.encode(e), step.fault).reply.Added? {
        AppendLeases(cfg, w, v, Admitted(e.eventId, cfg.encode(e), w.now));
      } else {
        assert v == w;
      }
    } else if step.Write? {
      AppendLeases(cfg, w, Append(w, Foreign(step.entry, w.now)), Foreign(step.entry, w.now));
    } else if step.CreateGroup? {
      SameLeases(cfg, w, EnsureGroup(w));
    } else if step.Read? {
      ReadLeases(cfg, w, step.owner, step.count);
    } else if step.Claim? {
      ClaimLeases(cfg, w, step.owner, step.cursor, step.count);
    } else {
      var id := w.delivered[step.ticket].id;
      AskKnows(cfg, id, w.appended[id].Content());
      FinishLeases(cfg, w, step.ticket, AskFor(cfg, id, w.appended[id].Content()), step.fault);
    }
  }

  lemma TickLeases(cfg: Config, w: World, ms: nat)
    requires Leased(cfg, w) && Closed(w)
    ensures Leased(cfg, Tick(w, ms)) && Closed(Tick(w, ms))
  {
  }

  lemma SameLeases(cfg: Config, w: World, v: World)
    requires Leased(cfg, w) && Closed(w)
    requires v.pending == w.pending && v.delivered == w.delivered && v.completed == w.completed
    requires v.stream == w.stream && v.now == w.now
    ensures Leased(cfg, v) && Closed(v)
  {
  }

  lemma {:induction false} RunLeases(cfg: Config, now: nat, steps: seq<Step>)
    requires Configured(cfg) && WireContract(cfg)
    ensures var w := Run(cfg, Start(now), steps); Leased(cfg, w) && Closed(w)
  {
    hide Leased, Closed, Coupled;
    if steps == [] {
      StartLeases(cfg, now);
    } else {
      var before := steps[..|steps| - 1];
      RunLeases(cfg, now, before);
      RunRefines(cfg, now, before);
      CoupledConserves(cfg, Run(cfg, Start(now), before));
      NextLeases(cfg, Run(cfg, Start(now), before), steps[|steps| - 1]);
    }
  }

  lemma StartLeases(cfg: Config, now: nat)
    ensures Leased(cfg, Start(now)) && Closed(Start(now))
  {
  }

  lemma CoupledConserves(cfg: Config, w: World)
    requires Coupled(cfg, w)
    ensures Conserved(w)
  {
  }

  lemma LeaseFacts(cfg: Config, w: World)
    requires Live(cfg, w)
    ensures Leased(cfg, w) && Closed(w)
  {
    hide Leased, Closed;
    var start: nat, steps: seq<Step> :| w == Run(cfg, Start(start), steps);
    RunLeases(cfg, start, steps);
  }

  // ----------------------------------------------------------------------------------------------
  // Consequences
  // ----------------------------------------------------------------------------------------------

  /** Two workers hold one entry only if the second got it a full idle time after the first. */
  lemma LeaseExclusive(cfg: Config, w: World, i: nat, j: nat)
    requires Live(cfg, w)
    requires i < j < |w.delivered| && w.delivered[i].id == w.delivered[j].id
    ensures w.delivered[i].at + cfg.reclaimMs <= w.delivered[j].at
  {
    LeaseFacts(cfg, w);
  }

  /** Every answered completion ran within the idle time after its delivery. */
  ghost predicate WithinLease(cfg: Config, w: World) {
    forall c :: 0 <= c < |w.completed| && w.completed[c].ticket < |w.delivered| ==>
      w.completed[c].at < w.delivered[w.completed[c].ticket].at + cfg.reclaimMs
  }

  /**
    If workers finish within the idle time, no entry is finished from two deliveries: only completions of one
    delivery can repeat.
   */
  lemma FinishedFromOneDelivery(cfg: Config, w: World, b: nat, c: nat)
    requires Live(cfg, w) && WithinLease(cfg, w)
    requires b < |w.completed| && c < |w.completed| && w.completed[b].id == w.completed[c].id
    ensures w.completed[b].ticket == w.completed[c].ticket
  {
    LeaseFacts(cfg, w);
    var k, l := w.completed[b].ticket, w.completed[c].ticket;
    assert w.delivered[l].at <= w.completed[b].at && w.delivered[k].at <= w.completed[c].at;
  }

  // ----------------------------------------------------------------------------------------------
  // One publication for each entry
  // ----------------------------------------------------------------------------------------------

  /** Some answered completion published p. */
  ghost predicate CompletedBy(cs: seq<Completion>, p: Publication) {
    exists c :: 0 <= c < |cs| && cs[c].id == p.id && cs[c].at == p.at
  }

  ghost predicate Witnessed(w: World) {
    && (forall i :: 0 <= i < |w.published| ==> CompletedBy(w.completed, w.published[i]))
    && (forall i :: 0 <= i < |w.rejected| ==> CompletedBy(w.completed, w.rejected[i]))
  }

  lemma StillCompleted(cs: seq<Completion>, more: seq<Completion>, p: Publication)
    requires CompletedBy(cs, p) && cs <= more
    ensures CompletedBy(more, p)
  {
    var c :| 0 <= c < |cs| && cs[c].id == p.id && cs[c].at == p.at;
    assert more[c] == cs[c];
  }

  /** What a completion does to the logs. */
  lemma FinishLogs(cfg: Config, w: World, ticket: nat, ask: Ask, fault: Fault)
    ensures var v := FinishAsk(cfg, w, ticket, ask, fault).world;
            var p := Publication(ask.id, ask.eventId, ask.body, w.now);
            && w.completed <= v.completed
            && (v.published == w.published || (v.published == w.published + [p] && CompletedBy(v.completed, p)))
            && (v.rejected == w.rejected || (v.rejected == w.rejected + [p] && CompletedBy(v.completed, p)))
  {
    var v := FinishAsk(cfg, w, ticket, ask, fault).world;
    if |v.completed| > |w.completed| {
      assert v.completed[|w.completed|].id == ask.id && v.completed[|w.completed|].at == w.now;
    }
  }

  lemma FinishWitnessed(cfg: Config, w: World, ticket: nat, ask: Ask, fault: Fault)
    requires Witnessed(w)
    ensures Witnessed(FinishAsk(cfg, w, ticket, ask, fault).world)
  {
    hide FinishAsk, CompletedBy;
    FinishLogs(cfg, w, ticket, ask, fault);
    var v := FinishAsk(cfg, w, ticket, ask, fault).world;
    forall i | 0 <= i < |v.published| ensures CompletedBy(v.completed, v.published[i]) {
      if i < |w.published| { StillCompleted(w.completed, v.completed, w.published[i]); }
    }
    forall i | 0 <= i < |v.rejected| ensures CompletedBy(v.completed, v.rejected[i]) {
      if i < |w.rejected| { StillCompleted(w.completed, v.completed, w.rejected[i]); }
    }
  }

  lemma NextWitnessed(cfg: Config, w: World, step: Step)
    requires Witnessed(w)
    ensures Witnessed(Next(cfg, w, step))
  {
    hide FinishAsk, AskFor, CompletedBy;
    if step.Complete? && Enabled(w, step) {
      var id := w.delivered[step.ticket].id;
      FinishWitnessed(cfg, w, step.ticket, AskFor(cfg, id, w.appended[id].Content()), step.fault);
    } else {
      var v := Next(cfg, w, step);
      assert v.published == w.published && v.rejected == w.rejected && v.completed == w.completed;
    }
  }

  lemma {:induction false} RunWitnessed(cfg: Config, now: nat, steps: seq<Step>)
    ensures Witnessed(Run(cfg, Start(now), steps))
  {
    if steps == [] {
    } else {
      hide Next, Witnessed;
      RunWitnessed(cfg, now, steps[..|steps| - 1]);
      NextWitnessed(cfg, Run(cfg, Start(now), steps[..|steps| - 1]), steps[|steps| - 1]);
    }
  }

  lemma LiveWitnessed(cfg: Config, w: World)
    requires Live(cfg, w)
    ensures Witnessed(w)
  {
    hide Witnessed;
    var start: nat, steps: seq<Step> :| w == Run(cfg, Start(start), steps);
    RunWitnessed(cfg, start, steps);
  }

  /** Two completions of one entry, by workers that keep to the idle time, are less than the idle time apart. */
  lemma CompletionsClose(cfg: Config, w: World, b: nat, c: nat)
    requires Live(cfg, w) && WithinLease(cfg, w)
    requires b < |w.completed| && c < |w.completed| && w.completed[b].id == w.completed[c].id
    ensures w.completed[b].at < w.completed[c].at + cfg.reclaimMs
  {
    hide Live;
    FinishedFromOneDelivery(cfg, w, b, c);
    LeaseFacts(cfg, w);
    assert w.delivered[w.completed[c].ticket].at <= w.completed[c].at;
  }

  lemma DecisionsOfOneEntry(cfg: Config, w: World, i: nat, j: nat)
    requires Live(cfg, w) && i < |w.published| && j < |w.published| && w.published[i].id == w.published[j].id
    ensures w.published[i].eventId == w.published[j].eventId
  {
    hide Live, MarkersAgree, Conserved, Kept, AskFor, Dated, Balanced, CausesFirst, NothingLost;
    Facts(cfg, w);
    assert Authentic(cfg, Abs(w), Abs(w).published[i], false) && Authentic(cfg, Abs(w), Abs(w).published[j], false);
  }

  /**
    If workers finish within the idle time, and that is no longer than they remember ids, no entry is ever
    decided twice, not even if some script runs again.
   */
  lemma DecidedOncePerEntry(cfg: Config, w: World, i: nat, j: nat)
    requires Live(cfg, w) && WithinLease(cfg, w) && cfg.reclaimMs <= WorkWindow(cfg)
    requires i < j < |w.published|
    ensures w.published[i].id != w.published[j].id
  {
    hide Live, WithinLease;
    if w.published[i].id == w.published[j].id {
      LiveWitnessed(cfg, w);
      assert CompletedBy(w.completed, w.published[i]) && CompletedBy(w.completed, w.published[j]);
      var b :| 0 <= b < |w.completed| && w.completed[b].id == w.published[i].id &&
          w.completed[b].at == w.published[i].at;
      var c :| 0 <= c < |w.completed| && w.completed[c].id == w.published[j].id &&
          w.completed[c].at == w.published[j].at;
      DecisionsOfOneEntry(cfg, w, i, j);
      OneDecisionPerWindow(cfg, w, i, j);
      CompletionsClose(cfg, w, c, b);
    }
  }
}
