/**
  The protocol refines the ledger: every step of anybody is one ledger deed or a stutter. The coupling says
  that the three marker families hold exactly what the logs call recent, and where the group stands.
 */
module Refinement {
  import opened Wrappers
  import opened Event
  import opened Keys
  import opened Ordered
  import opened Protocol
  import opened Ledger

  /** What is left of the state when markers, ownership and the group are forgotten. */
  function Abs(w: World): Ledger {
    Ledger(w.now, w.appended, w.stream, w.published, w.rejected, w.removed)
  }

  // ----------------------------------------------------------------------------------------------
  // Coupling
  // ----------------------------------------------------------------------------------------------

  ghost predicate IdempotencyAgrees(cfg: Config, w: World) {
    && (forall e :: IdempotencyKey(cfg.stream, e) in w.markers <==> RecentlyAdmitted(cfg, Abs(w), e))
    && (forall id :: id in w.appended && w.appended[id].Admitted? && w.now < w.appended[id].at + AdmitWindow(cfg) ==>
          var key := IdempotencyKey(cfg.stream, w.appended[id].eventId);
          && key in w.markers
          && w.markers[key] == Marker(cfg.digest(w.appended[id].payload), w.appended[id].at + AdmitWindow(cfg)))
  }

  ghost predicate CompletedAgrees(cfg: Config, w: World) {
    && (forall e :: CompletedKey(cfg.stream, e) in w.markers <==> RecentlyPublished(cfg, Abs(w), e))
    && (forall i :: 0 <= i < |w.published| && w.now < w.published[i].at + WorkWindow(cfg) ==>
          var key := CompletedKey(cfg.stream, w.published[i].eventId);
          key in w.markers && w.markers[key].expires == w.published[i].at + WorkWindow(cfg))
  }

  ghost predicate RejectedAgrees(cfg: Config, w: World) {
    && (forall id: nat :: RejectedKey(cfg.stream, IdText(id)) in w.markers <==> RecentlyRejected(cfg, Abs(w), id))
    && (forall i :: 0 <= i < |w.rejected| && w.now < w.rejected[i].at + WorkWindow(cfg) ==>
          var key := RejectedKey(cfg.stream, IdText(w.rejected[i].id));
          key in w.markers && w.markers[key].expires == w.rejected[i].at + WorkWindow(cfg))
  }

  ghost predicate MarkersAgree(cfg: Config, w: World) {
    IdempotencyAgrees(cfg, w) && CompletedAgrees(cfg, w) && RejectedAgrees(cfg, w)
  }

  /**
    The pending list is the part of the stream at or below the last delivered identifier, so the stream is
    the disjoint union of pending and undelivered entries.
   */
  ghost predicate Conserved(w: World) {
    && (w.group.None? ==> w.pending == map[] && w.delivered == [])
    && (w.group.Some? ==>
          && w.group.value <= w.lastId
          && w.pending.Keys == (set id | id in w.stream && id <= w.group.value)
          && (forall k :: 0 <= k < |w.delivered| ==> w.delivered[k].id <= w.group.value))
    && (forall k :: 0 <= k < |w.delivered| ==> w.delivered[k].id in w.appended)
    && (forall id :: id in w.appended ==> 0 < id <= w.lastId)
  }

  ghost predicate Coupled(cfg: Config, w: World) {
    MarkersAgree(cfg, w) && Conserved(w) && Kept(cfg, Abs(w))
  }

  // ----------------------------------------------------------------------------------------------
  // Markers follow the logs
  // ----------------------------------------------------------------------------------------------

  lemma TickAgrees(cfg: Config, w: World, ms: nat)
    requires MarkersAgree(cfg, w)
    ensures MarkersAgree(cfg, Tick(w, ms))
  {
    var v := Tick(w, ms);
    forall e ensures IdempotencyKey(cfg.stream, e) in v.markers <==> RecentlyAdmitted(cfg, Abs(v), e) {
      var key := IdempotencyKey(cfg.stream, e);
      if key in v.markers {
        assert RecentlyAdmitted(cfg, Abs(w), e);
        var id :| id in w.appended && IsAdmission(w.appended[id], e) && w.now < w.appended[id].at + AdmitWindow(cfg);
        assert id in Abs(v).appended;
      }
      if RecentlyAdmitted(cfg, Abs(v), e) {
        var id :| id in w.appended && IsAdmission(w.appended[id], e) && v.now < w.appended[id].at + AdmitWindow(cfg);
        assert id in w.appended;
      }
    }
    forall e ensures CompletedKey(cfg.stream, e) in v.markers <==> RecentlyPublished(cfg, Abs(v), e) {
      var key := CompletedKey(cfg.stream, e);
      if key in v.markers {
        assert RecentlyPublished(cfg, Abs(w), e);
        var i :| 0 <= i < |w.published| && w.published[i].eventId == e && w.now < w.published[i].at + WorkWindow(cfg);
        assert Abs(v).published[i] == w.published[i];
      }
    }
    forall id: nat ensures RejectedKey(cfg.stream, IdText(id)) in v.markers <==> RecentlyRejected(cfg, Abs(v), id) {
      var key := RejectedKey(cfg.stream, IdText(id));
      if key in v.markers {
        assert RecentlyRejected(cfg, Abs(w), id);
        var i :| 0 <= i < |w.rejected| && w.rejected[i].id == id && w.now < w.rejected[i].at + WorkWindow(cfg);
        assert Abs(v).rejected[i] == w.rejected[i];
      }
    }
  }

  /** A step that leaves the clock, the markers and both logs alone, and appends no admission, keeps agreement. */
  lemma SameMarkersAgree(cfg: Config, w: World, v: World)
    requires MarkersAgree(cfg, w)
    requires v.now == w.now && v.markers == w.markers && v.published == w.published && v.rejected == w.rejected
    requires forall id :: id in w.appended ==> id in v.appended && v.appended[id] == w.appended[id]
    requires forall id :: id in v.appended && v.appended[id].Admitted? ==> id in w.appended
    ensures MarkersAgree(cfg, v)
  {
    forall e ensures RecentlyAdmitted(cfg, Abs(v), e) <==> RecentlyAdmitted(cfg, Abs(w), e) {
      if RecentlyAdmitted(cfg, Abs(w), e) {
        var id :| id in w.appended && IsAdmission(w.appended[id], e) && w.now < w.appended[id].at + AdmitWindow(cfg);
        assert id in Abs(v).appended;
      }
    }
    forall e ensures RecentlyPublished(cfg, Abs(v), e) <==> RecentlyPublished(cfg, Abs(w), e) {
    }
    forall id: nat ensures RecentlyRejected(cfg, Abs(v), id) <==> RecentlyRejected(cfg, Abs(w), id) {
    }
  }

  /** v has the same live marker, or none, as w under a key. */
  ghost predicate SameAt(w: World, v: World, key: string) {
    (key in w.markers <==> key in v.markers) && (key in w.markers ==> v.markers[key] == w.markers[key])
  }

  lemma IdempotencyStays(cfg: Config, w: World, v: World)
    requires IdempotencyAgrees(cfg, w) && v.now == w.now && v.appended == w.appended
    requires forall e :: SameAt(w, v, IdempotencyKey(cfg.stream, e))
    ensures IdempotencyAgrees(cfg, v)
  {
    hide IdempotencyKey;
    forall e ensures RecentlyAdmitted(cfg, Abs(v), e) <==> RecentlyAdmitted(cfg, Abs(w), e) {
    }
    assert forall e :: SameAt(w, v, IdempotencyKey(cfg.stream, e));
  }

  lemma CompletedStays(cfg: Config, w: World, v: World)
    requires CompletedAgrees(cfg, w) && v.now == w.now && v.published == w.published
    requires forall e :: SameAt(w, v, CompletedKey(cfg.stream, e))
    ensures CompletedAgrees(cfg, v)
  {
    hide CompletedKey;
    forall e ensures RecentlyPublished(cfg, Abs(v), e) <==> RecentlyPublished(cfg, Abs(w), e) {
    }
  }

  lemma RejectedStays(cfg: Config, w: World, v: World)
    requires RejectedAgrees(cfg, w) && v.now == w.now && v.rejected == w.rejected
    requires forall id: nat :: SameAt(w, v, RejectedKey(cfg.stream, IdText(id)))
    ensures RejectedAgrees(cfg, v)
  {
    hide RejectedKey, IdText;
    forall id: nat ensures RecentlyRejected(cfg, Abs(v), id) <==> RecentlyRejected(cfg, Abs(w), id) {
    }
  }

  lemma AddedIdempotency(cfg: Config, w: World, v: World, eventId: string, payload: string)
    requires IdempotencyAgrees(cfg, w) && AdmitWindow(cfg) > 0
    requires IdempotencyKey(cfg.stream, eventId) !in w.markers && NextId(w) !in w.appended
    requires v.now == w.now && v.appended == w.appended[NextId(w) := Admitted(eventId, payload, w.now)]
    requires v.markers == w.markers[IdempotencyKey(cfg.stream, eventId) :=
             Marker(cfg.digest(payload), w.now + AdmitWindow(cfg))]
    ensures IdempotencyAgrees(cfg, v)
  {
    KeyFamilies(cfg.stream);
    hide IdempotencyKey, NextId;
    var added := NextId(w);
    forall e ensures RecentlyAdmitted(cfg, Abs(v), e) <==> e == eventId || RecentlyAdmitted(cfg, Abs(w), e) {
      if e == eventId { assert IsAdmission(Abs(v).appended[added], e); }
      if RecentlyAdmitted(cfg, Abs(w), e) {
        var id :| id in w.appended && IsAdmission(w.appended[id], e) && w.now < w.appended[id].at + AdmitWindow(cfg);
        assert id in Abs(v).appended;
      }
    }
  }

  lemma AddedAgrees(cfg: Config, w: World, eventId: string, payload: string)
    requires MarkersAgree(cfg, w) && AdmitWindow(cfg) > 0
    requires IdempotencyKey(cfg.stream, eventId) !in w.markers
    requires NextId(w) !in w.appended
    ensures MarkersAgree(cfg, Admit(cfg, w, eventId, payload, NoFault).world)
  {
    hide IdempotencyAgrees, CompletedAgrees, RejectedAgrees, IdempotencyKey, CompletedKey, RejectedKey;
    var v := Admit(cfg, w, eventId, payload, NoFault).world;
    if |w.stream| < cfg.maxQueue {
      KeyFamilies(cfg.stream);
      AddedIdempotency(cfg, w, v, eventId, payload);
      CompletedStays(cfg, w, v);
      RejectedStays(cfg, w, v);
    }
  }

  lemma PublishedCompleted(cfg: Config, w: World, v: World, p: Publication)
    requires CompletedAgrees(cfg, w) && WorkWindow(cfg) > 0
    requires CompletedKey(cfg.stream, p.eventId) !in w.markers && p.at == w.now
    requires v.now == w.now && v.published == w.published + [p]
    requires v.markers == w.markers[CompletedKey(cfg.stream, p.eventId) := Marker("1", w.now + WorkWindow(cfg))]
    ensures CompletedAgrees(cfg, v)
  {
    KeyFamilies(cfg.stream);
    hide CompletedKey;
    forall e ensures RecentlyPublished(cfg, Abs(v), e) <==> e == p.eventId || RecentlyPublished(cfg, Abs(w), e) {
      if e == p.eventId { assert Abs(v).published[|w.published|] == p; }
      if RecentlyPublished(cfg, Abs(w), e) {
        var i :| 0 <= i < |w.published| && w.published[i].eventId == e && w.now < w.published[i].at + WorkWindow(cfg);
        assert Abs(v).published[i] == w.published[i];
      }
    }
  }

  lemma RejectionRejected(cfg: Config, w: World, v: World, p: Publication)
    requires RejectedAgrees(cfg, w) && WorkWindow(cfg) > 0
    requires RejectedKey(cfg.stream, IdText(p.id)) !in w.markers && p.at == w.now
    requires v.now == w.now && v.rejected == w.rejected + [p]
    requires v.markers == w.markers[RejectedKey(cfg.stream, IdText(p.id)) := Marker("1", w.now + WorkWindow(cfg))]
    ensures RejectedAgrees(cfg, v)
  {
    KeyFamilies(cfg.stream);
    hide RejectedKey, IdText;
    forall id: nat ensures RecentlyRejected(cfg, Abs(v), id) <==> id == p.id || RecentlyRejected(cfg, Abs(w), id) {
      if id == p.id { assert Abs(v).rejected[|w.rejected|] == p; }
      if RecentlyRejected(cfg, Abs(w), id) {
        var i :| 0 <= i < |w.rejected| && w.rejected[i].id == id && w.now < w.rejected[i].at + WorkWindow(cfg);
        assert Abs(v).rejected[i] == w.rejected[i];
      }
    }
  }

  /** Setting a completion marker and logging the decision or the rejection in one step. */
  lemma PublishAgrees(cfg: Config, w: World, ask: Ask)
    requires MarkersAgree(cfg, w) && WorkWindow(cfg) > 0
    requires ask.key == if ask.dead then RejectedKey(cfg.stream, IdText(ask.id))
             else CompletedKey(cfg.stream, ask.eventId)
    requires ask.key !in w.markers
    ensures MarkersAgree(cfg, Publish(w.(markers := w.markers[ask.key := Marker("1", w.now + WorkWindow(cfg))]), ask))
  {
    hide IdempotencyAgrees, CompletedAgrees, RejectedAgrees, IdempotencyKey, CompletedKey, RejectedKey, IdText;
    var v := Publish(w.(markers := w.markers[ask.key := Marker("1", w.now + WorkWindow(cfg))]), ask);
    var p := Publication(ask.id, ask.eventId, ask.body, w.now);
    KeyFamilies(cfg.stream);
    IdempotencyStays(cfg, w, v);
    if ask.dead {
      CompletedStays(cfg, w, v);
      RejectionRejected(cfg, w, v, p);
    } else {
      RejectedStays(cfg, w, v);
      PublishedCompleted(cfg, w, v, p);
    }
  }

  lemma FinishAgrees(cfg: Config, w: World, ticket: nat, ask: Ask, fault: Fault)
    requires MarkersAgree(cfg, w) && WorkWindow(cfg) > 0
    requires ask.key == if ask.dead then RejectedKey(cfg.stream, IdText(ask.id))
             else CompletedKey(cfg.stream, ask.eventId)
    ensures MarkersAgree(cfg, FinishAsk(cfg, w, ticket, ask, fault).world)
  {
    hide MarkersAgree;
    var v := FinishAsk(cfg, w, ticket, ask, fault).world;
    if ask.key in w.markers {
      SameMarkersAgree(cfg, w, v);
    } else if fault == NoFault {
      var marked := w.(markers := w.markers[ask.key := Marker("1", w.now + WorkWindow(cfg))]);
      PublishAgrees(cfg, w, ask);
      SameMarkersAgree(cfg, Publish(marked, ask), v);
    }
  }

  /** XADD never reuses an identifier. */
  lemma NextIdFresh(w: World)
    requires Conserved(w)
    ensures NextId(w) !in w.appended
    ensures AboveAll(Abs(w), NextId(w))
  {
  }

  lemma SubmitAgrees(cfg: Config, w: World, eventId: string, payload: string, fault: Fault)
    requires MarkersAgree(cfg, w) && Conserved(w) && AdmitWindow(cfg) > 0
    ensures MarkersAgree(cfg, Admit(cfg, w, eventId, payload, fault).world)
  {
    hide MarkersAgree, Conserved;
    NextIdFresh(w);
    var outcome := Admit(cfg, w, eventId, payload, fault);
    if outcome.reply.Added? {
      AddedAgrees(cfg, w, eventId, payload);
    } else {
      assert outcome.world == w;
    }
  }

  lemma DeliveredAgrees(cfg: Config, w: World, v: World)
    requires MarkersAgree(cfg, w)
    requires v == w.(pending := v.pending, delivered := v.delivered, group := v.group)
    ensures MarkersAgree(cfg, v)
  {
    hide MarkersAgree;
    SameMarkersAgree(cfg, w, v);
  }

  lemma WriteAgrees(cfg: Config, w: World, entry: Entry)
    requires MarkersAgree(cfg, w) && Conserved(w)
    ensures MarkersAgree(cfg, Append(w, Foreign(entry, w.now)))
  {
    hide MarkersAgree, Conserved;
    NextIdFresh(w);
    SameMarkersAgree(cfg, w, Append(w, Foreign(entry, w.now)));
  }

  lemma NextAgrees(cfg: Config, w: World, step: Step)
    requires MarkersAgree(cfg, w) && Conserved(w) && Configured(cfg)
    ensures MarkersAgree(cfg, Next(cfg, w, step))
  {
    hide MarkersAgree, Conserved, Admit, FinishAsk, AskFor, Tick, Append;
    if !Enabled(w, step) {
    } else if step.Pass? {
      TickAgrees(cfg, w, step.ms);
    } else if step.Submit? {
      SubmitAgrees(cfg, w, step.event.eventId, cfg.encode(step.event), step.fault);
    } else if step.Write? {
      WriteAgrees(cfg, w, step.entry);
    } else if step.Complete? {
      var id := w.delivered[step.ticket].id;
      AskKnows(cfg, id, w.appended[id].Content());
      FinishAgrees(cfg, w, step.ticket, AskFor(cfg, id, w.appended[id].Content()), step.fault);
    } else {
      DeliveredAgrees(cfg, w, Next(cfg, w, step));
    }
  }

  // ----------------------------------------------------------------------------------------------
  // Conservation
  // ----------------------------------------------------------------------------------------------

  /** Identifiers out of left, in order, each idle long enough. */
  ghost predicate Claimable(cfg: Config, w: World, left: set<nat>, ids: seq<nat>)
    requires left <= w.pending.Keys
  {
    SetOf(ids) <= left && Ascending(ids) && forall id :: id in SetOf(ids) ==> Idle(cfg, w, id)
  }

  lemma ClaimableMore(cfg: Config, w: World, left: set<nat>, id: nat, more: seq<nat>)
    requires left <= w.pending.Keys && id in left && Idle(cfg, w, id) && (forall x :: x in left ==> id <= x)
    requires Claimable(cfg, w, left - {id}, more)
    ensures Claimable(cfg, w, left, [id] + more)
  {
    SetOfCons(id, more);
    AscendingCons(id, more);
  }

  lemma {:induction false} ClaimScanClaims(cfg: Config, w: World, left: set<nat>, count: nat, attempts: nat)
    requires left <= w.pending.Keys
    ensures Claimable(cfg, w, left, ClaimScan(cfg, w, left, count, attempts).claimed)
    decreases attempts
  {
    if left == {} || count == 0 || attempts == 0 {
    } else {
      hide Idle, ClaimScan, Claimable;
      var id := Min(left);
      ClaimScanHead(cfg, w, left, count, attempts);
      if Idle(cfg, w, id) {
        ClaimScanClaims(cfg, w, left - {id}, count - 1, attempts - 1);
        ClaimableMore(cfg, w, left, id, ClaimScan(cfg, w, left - {id}, count - 1, attempts - 1).claimed);
      } else {
        ClaimScanClaims(cfg, w, left - {id}, count, attempts - 1);
        ClaimableWithin(cfg, w, left - {id}, left, ClaimScan(cfg, w, left, count, attempts).claimed);
      }
    }
  }

  lemma ClaimableWithin(cfg: Config, w: World, few: set<nat>, left: set<nat>, ids: seq<nat>)
    requires few <= left <= w.pending.Keys && Claimable(cfg, w, few, ids)
    ensures Claimable(cfg, w, left, ids)
  {
  }

  lemma ClaimScanWithin(cfg: Config, w: World, left: set<nat>, count: nat, attempts: nat)
    requires left <= w.pending.Keys
    ensures SetOf(ClaimScan(cfg, w, left, count, attempts).claimed) <= left
    ensures Ascending(ClaimScan(cfg, w, left, count, attempts).claimed)
    ensures forall id :: id in SetOf(ClaimScan(cfg, w, left, count, attempts).claimed) ==> Idle(cfg, w, id)
  {
    ClaimScanClaims(cfg, w, left, count, attempts);
  }

  lemma ClaimScanHead(cfg: Config, w: World, left: set<nat>, count: nat, attempts: nat)
    requires left <= w.pending.Keys && left != {} && count != 0 && attempts != 0
    ensures var id := Min(left);
            ClaimScan(cfg, w, left, count, attempts).claimed ==
            if Idle(cfg, w, id) then [id] + ClaimScan(cfg, w, left - {id}, count - 1, attempts - 1).claimed
            else ClaimScan(cfg, w, left - {id}, count, attempts - 1).claimed
  {
  }

  lemma AscendingCons(x: nat, xs: seq<nat>)
    requires Ascending(xs) && forall y :: y in SetOf(xs) ==> x < y
    ensures Ascending([x] + xs)
  {
    forall i | 0 <= i < |xs| ensures x < xs[i] {
      assert xs[i] in SetOf(xs);
    }
  }

  lemma DeliverShape(w: World, ids: seq<nat>, owner: string)
    ensures Deliver(w, ids, owner).pending.Keys == w.pending.Keys + SetOf(ids)
    ensures forall k :: |w.delivered| <= k < |Deliver(w, ids, owner).delivered| ==>
              Deliver(w, ids, owner).delivered[k].id in SetOf(ids)
    ensures w.delivered <= Deliver(w, ids, owner).delivered
  {
    var v := Deliver(w, ids, owner);
    forall k | |w.delivered| <= k < |v.delivered| ensures v.delivered[k].id in SetOf(ids) {
      assert v.delivered[k].id == ids[k - |w.delivered|];
    }
  }

  /** What a read hands out is exactly the stream between the old and the new last delivered identifier. */
  lemma ReadTakes(w: World, count: nat)
    requires w.group.Some? && ReadIds(w, count) != []
    ensures var ids := ReadIds(w, count);
            var last := ids[|ids| - 1];
            && last in w.stream && w.group.value < last
            && SetOf(ids) == (set id | id in w.stream && w.group.value < id <= last)
  {
    var ids := ReadIds(w, count);
    var last := ids[|ids| - 1];
    FirstKLowest(Undelivered(w), count);
    FirstKAscending(Undelivered(w), count);
    assert last in SetOf(ids);
    forall x | x in SetOf(ids) ensures x <= last {
      var k :| 0 <= k < |ids| && ids[k] == x;
    }
    forall x | x in w.stream && w.group.value < x <= last ensures x in SetOf(ids) {
      assert x in Undelivered(w);
    }
  }

  lemma ReadConserves(w: World, owner: string, count: nat)
    requires Conserved(w) && Balanced(Abs(w))
    ensures Conserved(ReadGroup(w, owner, count))
  {
    var ids := ReadIds(w, count);
    if w.group.Some? && ids != [] {
      ReadTakes(w, count);
      DeliverShape(w, ids, owner);
      var v := ReadGroup(w, owner, count);
      var last := ids[|ids| - 1];
      assert last in Abs(w).unfinished;
      assert v.pending.Keys == (set id | id in v.stream && id <= last);
      forall k | 0 <= k < |v.delivered| ensures v.delivered[k].id <= last && v.delivered[k].id in v.appended {
        if k < |w.delivered| {
          assert v.delivered[k] == w.delivered[k];
        } else {
          assert v.delivered[k].id in Abs(w).unfinished;
        }
      }
    }
  }

  lemma ClaimConserves(cfg: Config, w: World, owner: string, cursor: nat, count: nat)
    requires Conserved(w) && Balanced(Abs(w))
    ensures Conserved(AutoClaim(cfg, w, owner, cursor, count))
  {
    hide Conserved, Balanced, Deliver, ClaimScan;
    if w.group.Some? {
      ClaimScanWithin(cfg, w, FromCursor(w, cursor), count, ATTEMPTS_PER_CLAIM * count);
      assert FromCursor(w, cursor) <= w.pending.Keys;
      RedeliverConserves(w, ClaimIds(cfg, w, cursor, count).claimed, owner);
    }
  }

  lemma RedeliverConserves(w: World, ids: seq<nat>, owner: string)
    requires Conserved(w) && Balanced(Abs(w)) && w.group.Some? && SetOf(ids) <= w.pending.Keys
    ensures Conserved(Deliver(w, ids, owner))
  {
    hide SetOf;
    var v := Deliver(w, ids, owner);
    DeliverShape(w, ids, owner);
    assert v.pending.Keys == w.pending.Keys;
    forall k | 0 <= k < |v.delivered| ensures v.delivered[k].id in v.pending || v.delivered[k] in w.delivered {
      if k < |w.delivered| { assert v.delivered[k] == w.delivered[k]; }
    }
    forall id | id in v.pending ensures id in w.appended {
      assert id in Abs(w).unfinished;
    }
  }

  lemma AppendConserves(w: World, a: Appended)
    requires Conserved(w)
    ensures Conserved(Append(w, a))
  {
    var v := Append(w, a);
    if w.group.Some? {
      assert v.pending.Keys == (set id | id in v.stream && id <= v.group.value);
    }
  }

  lemma FinishConserves(cfg: Config, w: World, ticket: nat, ask: Ask, fault: Fault)
    requires Conserved(w)
    ensures Conserved(FinishAsk(cfg, w, ticket, ask, fault).world)
  {
  }

  lemma ConservedStill(w: World, v: World)
    requires Conserved(w) && Balanced(Abs(w))
    requires v.stream == w.stream && v.pending == w.pending && v.delivered == w.delivered
    requires v.appended == w.appended && v.lastId == w.lastId
    requires v.group == w.group || (w.group.None? && v.group == Some(0))
    ensures Conserved(v)
  {
    if w.group.None? {
      forall id | id in w.stream ensures id > 0 { assert id in Abs(w).unfinished; }
    }
  }

  lemma MarkConserves(w: World, markers: map<string, Marker>)
    requires Conserved(w)
    ensures Conserved(w.(markers := markers))
  {
  }

  lemma SubmitConserves(cfg: Config, w: World, eventId: string, payload: string, fault: Fault)
    requires Conserved(w)
    ensures Conserved(Admit(cfg, w, eventId, payload, fault).world)
  {
    hide Conserved, Append;
    var outcome := Admit(cfg, w, eventId, payload, fault);
    if outcome.reply.Added? {
      var key := IdempotencyKey(cfg.stream, eventId);
      var marked := w.(markers := w.markers[key := Marker(cfg.digest(payload), w.now + AdmitWindow(cfg))]);
      MarkConserves(w, marked.markers);
      AppendConserves(marked, Admitted(eventId, payload, w.now));
    }
  }

  lemma NextConserves(cfg: Config, w: World, step: Step)
    requires Coupled(cfg, w)
    ensures Conserved(Next(cfg, w, step))
  {
    hide MarkersAgree, Kept, Conserved, Balanced, Dated;
    KeptBalances(cfg, Abs(w));
    if !Enabled(w, step) {
    } else if step.Pass? {
      ConservedStill(w, Tick(w, step.ms));
    } else if step.CreateGroup? {
      ConservedStill(w, EnsureGroup(w));
    } else if step.Submit? {
      SubmitConserves(cfg, w, step.event.eventId, cfg.encode(step.event), step.fault);
    } else if step.Write? {
      AppendConserves(w, Foreign(step.entry, w.now));
    } else if step.Read? {
      ReadConserves(w, step.owner, step.count);
    } else if step.Claim? {
      ClaimConserves(cfg, w, step.owner, step.cursor, step.count);
    } else {
      var id := w.delivered[step.ticket].id;
      FinishConserves(cfg, w, step.ticket, AskFor(cfg, id, w.appended[id].Content()), step.fault);
    }
  }

  lemma KeptBalances(cfg: Config, l: Ledger)
    requires Kept(cfg, l)
    ensures Balanced(l) && Dated(l)
  {
  }

  // ----------------------------------------------------------------------------------------------
  // Simulation
  // ----------------------------------------------------------------------------------------------

  /** The ledger deed a step amounts to. */
  ghost function DeedOf(cfg: Config, w: World, step: Step): Deed {
    if !Enabled(w, step) then Stutter
    else
      match step
      case Pass(ms) => Wait(ms)
      case Submit(e, fault) => if fault == NoFault then Accept(NextId(w), e) else Stutter
      case Write(entry) => Arrive(NextId(w), entry)
      case Complete(ticket, fault) =>
        var id := w.delivered[ticket].id;
        if fault == NoFault || Recently(cfg, Abs(w), AskFor(cfg, id, w.appended[id].Content())) then Settle(id)
            else Stutter
      case _ => Stutter
  }

  lemma SubmitRefines(cfg: Config, w: World, e: PaymentEvent, fault: Fault)
    requires MarkersAgree(cfg, w) && Conserved(w) && Valid(e)
    ensures Abs(Admit(cfg, w, e.eventId, cfg.encode(e), fault).world) ==
            if fault == NoFault then Do(cfg, Abs(w), Accept(NextId(w), e)) else Abs(w)
  {
    hide Conserved, Valid, RecentlyAdmitted, CompletedAgrees, RejectedAgrees, AboveAll;
    NextIdFresh(w);
    assert IdempotencyKey(cfg.stream, e.eventId) in w.markers <==> RecentlyAdmitted(cfg, Abs(w), e.eventId);
  }

  /** The marker a worker looks up is live exactly when the log holds a recent decision or rejection. */
  lemma MarkerTellsRecent(cfg: Config, w: World, ask: Ask)
    requires MarkersAgree(cfg, w)
    requires ask.key == if ask.dead then RejectedKey(cfg.stream, IdText(ask.id))
             else CompletedKey(cfg.stream, ask.eventId)
    ensures ask.key in w.markers <==> Recently(cfg, Abs(w), ask)
  {
  }

  lemma FinishRefines(cfg: Config, w: World, ticket: nat, ask: Ask, fault: Fault)
    requires ask.key in w.markers <==> Recently(cfg, Abs(w), ask)
    ensures Abs(FinishAsk(cfg, w, ticket, ask, fault).world) ==
            if fault == NoFault || Recently(cfg, Abs(w), ask) then SettleAsk(cfg, Abs(w), ask) else Abs(w)
  {
    hide Recently;
  }

  lemma CompleteRefines(cfg: Config, w: World, ticket: nat, fault: Fault)
    requires Coupled(cfg, w) && Enabled(w, Complete(ticket, fault))
    ensures Abs(Next(cfg, w, Complete(ticket, fault))) == Do(cfg, Abs(w), DeedOf(cfg, w, Complete(ticket, fault)))
  {
    hide MarkersAgree, Conserved, Kept, Recently;
    var id := w.delivered[ticket].id;
    var ask := AskFor(cfg, id, w.appended[id].Content());
    AskKnows(cfg, id, w.appended[id].Content());
    MarkerTellsRecent(cfg, w, ask);
    FinishRefines(cfg, w, ticket, ask, fault);
  }

  /** Forward simulation: one step of the protocol is one deed of the ledger. */
  lemma StepRefines(cfg: Config, w: World, step: Step)
    requires Coupled(cfg, w)
    ensures Abs(Next(cfg, w, step)) == Do(cfg, Abs(w), DeedOf(cfg, w, step))
  {
    hide MarkersAgree, Conserved, Kept, Admit, FinishAsk, AskFor, AboveAll, Valid, NextId;
    if !Enabled(w, step) {
    } else if step.Submit? {
      SubmitRefines(cfg, w, step.event, step.fault);
    } else if step.Complete? {
      CompleteRefines(cfg, w, step.ticket, step.fault);
    } else if step.Write? {
      NextIdFresh(w);
    }
  }

  lemma NextCoupled(cfg: Config, w: World, step: Step)
    requires Coupled(cfg, w) && Configured(cfg) && WireContract(cfg)
    ensures Coupled(cfg, Next(cfg, w, step))
  {
    hide MarkersAgree, Conserved, Kept;
    NextAgrees(cfg, w, step);
    NextConserves(cfg, w, step);
    StepRefines(cfg, w, step);
    DoKeeps(cfg, Abs(w), DeedOf(cfg, w, step));
  }

  ghost function DeedsOf(cfg: Config, w: World, steps: seq<Step>): seq<Deed> {
    if steps == [] then []
    else
      var before := steps[..|steps| - 1];
      DeedsOf(cfg, w, before) + [DeedOf(cfg, Run(cfg, w, before), steps[|steps| - 1])]
  }

  lemma StartCoupled(cfg: Config, now: nat)
    ensures Coupled(cfg, Start(now))
  {
    var w := Start(now);
    assert AdmittedUnfinished(Abs(w)) == {};
  }

  /**
    The whole system, with any number of gateways and workers, any schedule, any failed script, lost reply or
    crash, does what the ledger does.
   */
  lemma {:induction false} RunRefines(cfg: Config, now: nat, steps: seq<Step>)
    requires Configured(cfg) && WireContract(cfg)
    ensures Coupled(cfg, Run(cfg, Start(now), steps))
    ensures Abs(Run(cfg, Start(now), steps)) == DoAll(cfg, Blank(now), DeedsOf(cfg, Start(now), steps))
  {
    hide Coupled;
    if steps == [] {
      StartCoupled(cfg, now);
    } else {
      var before := steps[..|steps| - 1];
      var last := steps[|steps| - 1];
      var w := Run(cfg, Start(now), before);
      RunRefines(cfg, now, before);
      StepRefines(cfg, w, last);
      NextCoupled(cfg, w, last);
      var deeds := DeedsOf(cfg, Start(now), steps);
      assert deeds[..|deeds| - 1] == DeedsOf(cfg, Start(now), before);
    }
  }

  lemma ReachableCoupled(cfg: Config, w: World)
    requires Configured(cfg) && WireContract(cfg) && Reachable(cfg, w)
    ensures Coupled(cfg, w)
  {
    hide Coupled;
    var start: nat, steps: seq<Step> :| w == Run(cfg, Start(start), steps);
    RunRefines(cfg, start, steps);
  }
}
