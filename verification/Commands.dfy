/**
  What each script and each command does to the store, said of the states before and after it: with the keys and
  times spelled out, and without the functions that compute them.
 */
module Commands {
  import opened Wrappers
  import opened Keys
  import opened Ordered
  import opened Protocol
  import opened Ledger
  import opened Refinement
  import opened Safety

  // ----------------------------------------------------------------------------------------------
  // Admission
  // ----------------------------------------------------------------------------------------------

  /** v is w with one more key of the given value, which lives for so many seconds. */
  ghost predicate Marked(w: World, v: World, key: string, value: string, seconds: nat) {
    v.markers == w.markers[key := Marker(value, w.now + 1000 * seconds)]
  }

  /** The reply of the admission script, by what it found; anything but an admission changes nothing. */
  lemma AdmitReplies(cfg: Config, w: World, eventId: string, payload: string, fault: Fault)
    ensures var key := cfg.stream + ":idempotency:" + eventId;
            var o := Admit(cfg, w, eventId, payload, fault);
            && (o.reply == Duplicate <==> key in w.markers && w.markers[key].value == cfg.digest(payload))
            && (o.reply == Conflict <==> key in w.markers && w.markers[key].value != cfg.digest(payload))
            && (o.reply == Full <==> key !in w.markers && fault != WrongType && |w.stream| >= cfg.maxQueue)
            && (o.reply.Added? <==> key !in w.markers && fault == NoFault && |w.stream| < cfg.maxQueue)
            && (!o.reply.Added? ==> o.world == w)
  {
  }

  /**
    An admission names the identifier under which the entry now is. That is a new one, the last the stream has given,
    and its milliseconds are the clock's unless the stream is ahead of the clock.
   */
  lemma AdmitAdds(cfg: Config, w: World, eventId: string, payload: string, fault: Fault, id: nat)
    requires Conserved(w) && Balanced(Abs(w))
    requires Admit(cfg, w, eventId, payload, fault).reply == Added(id)
    ensures var v := Admit(cfg, w, eventId, payload, fault).world;
            && id !in w.stream && v.stream == w.stream[id := Entry(Some(eventId), Some(payload))]
            && v.lastId == id && w.lastId < id && w.now * 0x1_0000_0000_0000_0000 <= id
            && (id == w.now * 0x1_0000_0000_0000_0000 || id == w.lastId + 1)
            && Marked(w, v, cfg.stream + ":idempotency:" + eventId, cfg.digest(payload), cfg.admitTtl)
            && v.appended == w.appended[id := Admitted(eventId, payload, w.now)]
            && v == w.(markers := v.markers, stream := v.stream, lastId := id, appended := v.appended)
  {
    forall k | k in w.stream ensures k <= w.lastId {
      assert k in Abs(w).unfinished;
    }
  }

  // ----------------------------------------------------------------------------------------------
  // Completion
  // ----------------------------------------------------------------------------------------------

  /** What a worker asks for: a decision under the event's id, or a rejection under the entry's. */
  lemma AskSays(cfg: Config, id: nat, entry: Entry)
    ensures var ask := AskFor(cfg, id, entry);
            match EventOf(cfg, entry)
            case Some(event) =>
              ask == Ask(id, cfg.stream + ":completed:" + event.eventId, event.eventId, Decision(cfg.score(event)),
                  false)
            case None =>
              && ask.id == id && ask.dead && ask.key == cfg.stream + ":rejected:" + IdText(id)
              && ask.eventId == (if entry.eventId.Some? then entry.eventId.value else IdText(id))
              && ask.body == Rejection(IdText(id), ask.eventId)
  {
  }

  /** The answer of the completion script, by what it found; a failure changes nothing. */
  lemma FinishReplies(cfg: Config, w: World, ticket: nat, ask: Ask, fault: Fault)
    ensures var o := FinishAsk(cfg, w, ticket, ask, fault);
            && (o.code == 0 <==> ask.key in w.markers)
            && (o.code == 1 <==> ask.key !in w.markers && fault == NoFault)
            && (o.code == -1 <==> ask.key !in w.markers && fault != NoFault)
            && (o.code == -1 ==> o.world == w)
  {
  }

  /** A completion takes out the entry; the first one marks the key and publishes what was asked. */
  lemma FinishPublishes(cfg: Config, w: World, ticket: nat, ask: Ask, fault: Fault)
    requires ask.key in w.markers || fault == NoFault
    ensures var o := FinishAsk(cfg, w, ticket, ask, fault);
            var v := o.world;
            var line := [Publication(ask.id, ask.eventId, ask.body, w.now)];
            && v.stream == w.stream - {ask.id} && v.pending == w.pending - {ask.id}
            && (o.code == 1 ==> Marked(w, v, ask.key, "1", cfg.workTtl))
            && (o.code == 0 ==> v.markers == w.markers)
            && v.published == w.published + (if o.code == 1 && !ask.dead then line else [])
            && v.rejected == w.rejected + (if o.code == 1 && ask.dead then line else [])
            && v.removed == (if ask.id in w.stream then w.removed[ask.id := w.now] else w.removed)
            && v.completed == w.completed + [Completion(ticket, ask.id, w.now, o.code == 1, ask.dead)]
  {
  }

  /** Every line of the dead-letter stream names the entry it came from and the event id that entry claims. */
  lemma RejectionsSay(cfg: Config, w: World, i: nat)
    requires Live(cfg, w) && i < |w.rejected|
    ensures var p := w.rejected[i];
            && p.id in w.appended
            && var claimed := w.appended[p.id].Content().eventId;
               && p.body == Rejection(IdText(p.id), p.eventId)
               && p.eventId == (if claimed.Some? then claimed.value else IdText(p.id))
  {
    hide Live, MarkersAgree, Conserved, Kept, Dated, Balanced, CausesFirst, NothingLost;
    Facts(cfg, w);
    var p := w.rejected[i];
    assert Authentic(cfg, Abs(w), Abs(w).rejected[i], true);
    AskKnows(cfg, p.id, w.appended[p.id].Content());
  }

  /** Every line of the decision stream is the score of the event in the entry it came from. */
  lemma DecisionsSay(cfg: Config, w: World, i: nat)
    requires Live(cfg, w) && i < |w.published|
    ensures var p := w.published[i];
            && p.id in w.appended
            && var event := EventOf(cfg, w.appended[p.id].Content());
               event.Some? && p.eventId == event.value.eventId && p.body == Decision(cfg.score(event.value))
  {
    hide Live, MarkersAgree, Conserved, Kept, Dated, Balanced, CausesFirst, NothingLost;
    Facts(cfg, w);
    var p := w.published[i];
    assert Authentic(cfg, Abs(w), Abs(w).published[i], false);
    AskKnows(cfg, p.id, w.appended[p.id].Content());
  }

  // ----------------------------------------------------------------------------------------------
  // Group read and claim
  // ----------------------------------------------------------------------------------------------

  /** v is w with the given entries handed to owner now, each with a delivery record of its own. */
  ghost predicate HandedTo(w: World, v: World, ids: seq<nat>, owner: string) {
    && (forall id :: id in v.pending <==> id in w.pending || id in ids)
    && (forall id :: id in v.pending ==>
          v.pending[id] == if id in ids then Nack(owner, w.now) else w.pending[id])
    && |v.delivered| == |w.delivered| + |ids| && w.delivered <= v.delivered
    && (forall i :: 0 <= i < |ids| ==> v.delivered[|w.delivered| + i] == Delivery(ids[i], owner, w.now))
    && v == w.(pending := v.pending, delivered := v.delivered, group := v.group)
  }

  lemma DeliverHands(w: World, ids: seq<nat>, owner: string, group: Option<nat>)
    ensures HandedTo(w, Deliver(w, ids, owner).(group := group), ids, owner)
  {
    forall id ensures id in SetOf(ids) <==> id in ids {
    }
  }

  /** What lies above the group's position. */
  function Unread(w: World): set<nat>
    requires w.group.Some?
  {
    set id | id in w.stream && w.group.value < id
  }

  /**
    A read hands over, in ascending order, the lowest entries above the group's position, as many as were asked for or
    all there are, and moves the position to the last of them.
   */
  lemma ReadExactly(w: World, owner: string, count: nat)
    requires w.group.Some?
    ensures var v := ReadGroup(w, owner, count);
            var ids := ReadIds(w, count);
            var unread := Unread(w);
            && HandedTo(w, v, ids, owner)
            && Ascending(ids) && (forall id :: id in ids ==> id in unread)
            && |ids| == (if |unread| <= count then |unread| else count)
            && (forall x, y :: x in ids && y in unread && y !in ids ==> x < y)
            && v.group == if ids == [] then w.group else Some(ids[|ids| - 1])
  {
    hide HandedTo, Ascending, ReadGroup, ReadIds;
    ReadPicks(w, count);
    ReadHands(w, owner, count);
  }

  lemma ReadPicks(w: World, count: nat)
    requires w.group.Some?
    ensures var ids := ReadIds(w, count);
            var unread := Unread(w);
            && Ascending(ids) && (forall id :: id in ids ==> id in unread)
            && |ids| == (if |unread| <= count then |unread| else count)
            && (forall x, y :: x in ids && y in unread && y !in ids ==> x < y)
  {
    var unread := Unread(w);
    assert Undelivered(w) == unread;
    FirstKLowest(unread, count);
    FirstKAscending(unread, count);
    FirstKLength(unread, count);
    forall id ensures id in SetOf(ReadIds(w, count)) <==> id in ReadIds(w, count) {
    }
  }

  lemma ReadHands(w: World, owner: string, count: nat)
    requires w.group.Some?
    ensures var v := ReadGroup(w, owner, count);
            var ids := ReadIds(w, count);
            HandedTo(w, v, ids, owner) && v.group == if ids == [] then w.group else Some(ids[|ids| - 1])
  {
    var ids := ReadIds(w, count);
    if ids == [] {
      NothingHanded(w, owner);
    } else {
      DeliverHands(w, ids, owner, Some(ids[|ids| - 1]));
    }
  }

  lemma NothingHanded(w: World, owner: string)
    ensures HandedTo(w, w, [], owner)
  {
  }

  /** The part of left that is looked at before the next one, which is 0 after the last. */
  function UpTo(left: set<nat>, next: nat): set<nat> {
    set id | id in left && (next == 0 || id < next)
  }

  /** The pending entries a claim looks at, from the cursor on. */
  function Looked(w: World, cursor: nat, next: nat): set<nat> {
    set id | id in w.pending && cursor <= id && (next == 0 || id < next)
  }

  /** What looking through left from its low end finds, with so many wanted and so many looks allowed. */
  ghost predicate Found(cfg: Config, w: World, left: set<nat>, count: nat, attempts: nat, scan: Scan)
    requires left <= w.pending.Keys
  {
    var looked := UpTo(left, scan.next);
    && Ascending(scan.claimed)
    && (forall id :: id in scan.claimed <==> id in looked && w.pending[id].deliveredAt + cfg.reclaimMs <= w.now)
    && |scan.claimed| <= count && |looked| <= attempts
    && (scan.next == 0 || (scan.next in left && (|scan.claimed| == count || |looked| == attempts)))
  }

  lemma FoundNothing(cfg: Config, w: World, left: set<nat>, count: nat, attempts: nat)
    requires left <= w.pending.Keys && (forall id :: id in left ==> 0 < id)
    requires left == {} || count == 0 || attempts == 0
    ensures Found(cfg, w, left, count, attempts, Scan([], if left == {} then 0 else Min(left)))
  {
    var next := if left == {} then 0 else Min(left);
    assert UpTo(left, next) == {};
  }

  lemma FoundOneMore(cfg: Config, w: World, left: set<nat>, count: nat, attempts: nat, id: nat, more: Scan)
    requires left <= w.pending.Keys && (forall x :: x in left ==> 0 < x)
    requires id in left && (forall x :: x in left ==> id <= x) && count > 0 && attempts > 0
    requires var idle := w.pending[id].deliveredAt + cfg.reclaimMs <= w.now;
             Found(cfg, w, left - {id}, if idle then count - 1 else count, attempts - 1, more)
    ensures var idle := w.pending[id].deliveredAt + cfg.reclaimMs <= w.now;
            Found(cfg, w, left, count, attempts, Scan(if idle then [id] + more.claimed else more.claimed, more.next))
  {
    var looked, rest := UpTo(left, more.next), UpTo(left - {id}, more.next);
    assert looked == rest + {id} && id !in rest;
    forall x | x in more.claimed ensures id < x {
      assert x in rest && x in left - {id};
      assert id <= x;
    }
    AscendingFrom(id, more.claimed);
  }

  lemma AscendingFrom(x: nat, xs: seq<nat>)
    requires Ascending(xs) && forall y :: y in xs ==> x < y
    ensures Ascending([x] + xs)
  {
    forall i | 0 <= i < |xs| ensures x < xs[i] {
      assert xs[i] in xs;
    }
  }

  lemma {:induction false} ScanFinds(cfg: Config, w: World, left: set<nat>, count: nat, attempts: nat)
    requires left <= w.pending.Keys && (forall id :: id in left ==> 0 < id)
    ensures Found(cfg, w, left, count, attempts, ClaimScan(cfg, w, left, count, attempts))
    decreases attempts
  {
    if left == {} || count == 0 || attempts == 0 {
      FoundNothing(cfg, w, left, count, attempts);
    } else {
      hide Found;
      var id := Min(left);
      var count' := if Idle(cfg, w, id) then count - 1 else count;
      ScanFinds(cfg, w, left - {id}, count', attempts - 1);
      FoundOneMore(cfg, w, left, count, attempts, id, ClaimScan(cfg, w, left - {id}, count', attempts - 1));
    }
  }

  /**
    A claim looks at pending entries from the cursor upwards and hands over exactly those of them whose last delivery
    is a full reclaim time ago. It stops only when it has as many as were asked for, or has looked at ten times as
    many, or is through, and the next cursor is the first entry not looked at, or 0 after the last.
   */
  lemma ClaimExactly(cfg: Config, w: World, owner: string, cursor: nat, count: nat)
    requires w.group.Some? && (forall id :: id in w.pending ==> 0 < id)
    ensures var v := AutoClaim(cfg, w, owner, cursor, count);
            var scan := ClaimIds(cfg, w, cursor, count);
            var looked := Looked(w, cursor, scan.next);
            && HandedTo(w, v, scan.claimed, owner) && v.group == w.group && Ascending(scan.claimed)
            && (forall id :: id in scan.claimed <==> id in looked && w.pending[id].deliveredAt + cfg.reclaimMs <= w.now)
            && |scan.claimed| <= count && |looked| <= 10 * count
            && (scan.next == 0 ||
                (scan.next in w.pending && cursor <= scan.next && (|scan.claimed| == count || |looked| == 10 * count)))
  {
    hide ClaimScan;
    var left := FromCursor(w, cursor);
    var scan := ClaimIds(cfg, w, cursor, count);
    ScanFinds(cfg, w, left, count, ATTEMPTS_PER_CLAIM * count);
    assert Looked(w, cursor, scan.next) == UpTo(left, scan.next);
    DeliverHands(w, scan.claimed, owner, w.group);
    assert Deliver(w, scan.claimed, owner).(group := w.group) == Deliver(w, scan.claimed, owner);
  }
}
