/**
  Redis as an object that both services mutate: the commands they use, and the two scripts written out command
  by command. Every method is tied to the transition of the same name on the abstract state.
 */
module Store {
  import opened Wrappers
  import opened Event
  import opened Keys
  import opened Ordered
  import opened Protocol
  import opened Cycle

  /** What EVAL of the admission script returns: a pair, or a Redis error. */
  datatype RawReply = Pair(code: int, id: nat) | ErrorReply

  // ----------------------------------------------------------------------------------------------
  // The scan of XAUTOCLAIM, one pending entry at a time
  // ----------------------------------------------------------------------------------------------

  /** With ids claimed so far and left still to look at, the whole scan is what the rest of it adds. */
  ghost predicate Claiming(
    cfg: Config, w: World, left: set<nat>, ids: seq<nat>, wanted: nat, attempts: nat, whole: Scan)
    requires left <= w.pending.Keys
  {
    var more := ClaimScan(cfg, w, left, wanted, attempts);
    whole == Scan(ids + more.claimed, more.next)
  }

  lemma ClaimingStart(cfg: Config, w: World, cursor: nat, count: nat)
    ensures FromCursor(w, cursor) <= w.pending.Keys
    ensures Claiming(cfg, w, FromCursor(w, cursor), [], count, ATTEMPTS_PER_CLAIM * count,
            ClaimIds(cfg, w, cursor, count))
  {
    hide ClaimScan;
    assert [] + ClaimIds(cfg, w, cursor, count).claimed == ClaimIds(cfg, w, cursor, count).claimed;
  }

  lemma ClaimingNext(cfg: Config, w: World, left: set<nat>, ids: seq<nat>, wanted: nat, attempts: nat, whole: Scan)
    requires left <= w.pending.Keys && Claiming(cfg, w, left, ids, wanted, attempts, whole)
    requires left != {} && wanted > 0 && attempts > 0
    ensures var id := Min(left);
            if Idle(cfg, w, id) then Claiming(cfg, w, left - {id}, ids + [id], wanted - 1, attempts - 1, whole)
            else Claiming(cfg, w, left - {id}, ids, wanted, attempts - 1, whole)
  {
    var id := Min(left);
    if Idle(cfg, w, id) {
      var more := ClaimScan(cfg, w, left - {id}, wanted - 1, attempts - 1).claimed;
      assert ids + ([id] + more) == ids + [id] + more;
    }
  }

  lemma ClaimingEnd(cfg: Config, w: World, left: set<nat>, ids: seq<nat>, wanted: nat, attempts: nat, whole: Scan)
    requires left <= w.pending.Keys && Claiming(cfg, w, left, ids, wanted, attempts, whole)
    requires left == {} || wanted == 0 || attempts == 0
    ensures whole == Scan(ids, if left == {} then 0 else Min(left))
  {
    assert ids + [] == ids;
  }

  lemma ClaimDelivers(cfg: Config, w: World, owner: string, cursor: nat, count: nat)
    requires w.group.Some?
    ensures AutoClaim(cfg, w, owner, cursor, count) == Deliver(w, ClaimIds(cfg, w, cursor, count).claimed, owner)
  {
  }

  class Redis {
    var now: nat
    var markers: map<string, Marker>
    var stream: map<nat, Entry>
    var lastId: nat
    var group: Option<nat>
    var pending: map<nat, Nack>
    var published: seq<Publication>
    var rejected: seq<Publication>
    var appended: map<nat, Appended>
    var delivered: seq<Delivery>
    ghost var completed: seq<Completion>
    ghost var removed: map<nat, nat>

    ghost function View(): World
      reads this
    {
      World(now, markers, stream, lastId, group, pending, published, rejected, appended, delivered, completed, removed)
    }

    constructor (clock: nat)
      ensures View() == Start(clock)
    {
      now, markers, stream, lastId, group, pending := clock, map[], map[], 0, None, map[];
      published, rejected := [], [];
      appended, delivered, completed, removed := map[], [], [], map[];
    }

    /** Time passes; expired keys are no longer visible to anyone. */
    method Elapse(ms: nat)
      modifies this
      ensures View() == Tick(old(View()), ms)
    {
      now := now + ms;
      markers := map k | k in markers && now < markers[k].expires :: markers[k];
    }

    // --------------------------------------------------------------------------------------------
    // Commands
    // --------------------------------------------------------------------------------------------

    method Get(key: string) returns (value: Option<string>)
      ensures value == if key in markers then Some(markers[key].value) else None
    {
      value := if key in markers then Some(markers[key].value) else None;
    }

    method SetEx(key: string, value: string, seconds: nat)
      modifies this`markers
      ensures markers == old(markers)[key := Marker(value, now + seconds * 1000)]
    {
      markers := markers[key := Marker(value, now + seconds * 1000)];
    }

    method Del(key: string)
      modifies this`markers
      ensures markers == old(markers) - {key}
    {
      markers := markers - {key};
    }

    /** XADD to the input stream with an automatic identifier. */
    method AddInput(entry: Entry, record: Appended) returns (id: nat)
      requires record.Content() == entry
      modifies this`stream, this`lastId, this`appended
      ensures id == NextId(old(View()))
      ensures View() == Append(old(View()), record)
    {
      id := if now * SEQUENCE_SPAN > lastId then now * SEQUENCE_SPAN else lastId + 1;
      stream := stream[id := entry];
      lastId := id;
      appended := appended[id := record];
    }

    /** Something other than the gateway writes to the input stream. */
    method WriteForeign(entry: Entry) returns (id: nat)
      modifies this
      ensures View() == Append(old(View()), Foreign(entry, old(now)))
    {
      id := AddInput(entry, Foreign(entry, now));
    }

    /** XGROUP CREATE at 0 with MKSTREAM; busy means the group was there, and then nothing changes. */
    method CreateGroup() returns (busy: bool)
      modifies this`group
      ensures View() == EnsureGroup(old(View()))
      ensures busy == old(group).Some?
      ensures busy ==> group == old(group)
    {
      busy := group.Some?;
      if !busy {
        group := Some(0);
      }
    }

    /** Enters the identifiers into the pending list of a consumer. */
    method HandOver(ids: seq<nat>, owner: string)
      modifies this`pending, this`delivered
      ensures View() == Deliver(old(View()), ids, owner)
    {
      var clock := now;
      pending := pending + (map id | id in SetOf(ids) :: Nack(owner, clock));
      delivered := delivered + seq(|ids|, i requires 0 <= i < |ids| => Delivery(ids[i], owner, clock));
    }

    /** XREADGROUP >; None stands for the NOGROUP error. */
    method ReadNew(owner: string, count: nat) returns (batch: Option<seq<Held>>)
      modifies this
      ensures View() == ReadGroup(old(View()), owner, count)
      ensures batch == if old(group).None? then None else Some(Holding(old(View()).stream, ReadIds(old(View()), count)))
    {
      if group.None? {
        return None;
      }
      ghost var before := View();
      var unread := set id | id in stream && group.value < id;
      assert unread == Undelivered(before);
      var ids := FirstK(unread, count);
      ReadInStream(before, count);
      batch := Some(Holding(stream, ids));
      if ids != [] {
        HandOver(ids, owner);
        group := Some(ids[|ids| - 1]);
      }
    }

    /** XAUTOCLAIM; None stands for the NOGROUP error. */
    method ClaimIdle(cfg: Config, owner: string, cursor: nat, count: nat) returns (reply: Option<(seq<Held>, nat, nat)>)
      modifies this
      ensures View() == AutoClaim(cfg, old(View()), owner, cursor, count)
      ensures var scan := ClaimIds(cfg, old(View()), cursor, count);
              reply == if old(group).None? then None
                       else Some((Holding(old(View()).stream, scan.claimed), scan.next, |scan.claimed|))
    {
      if group.None? {
        return None;
      }
      hide Claiming, Deliver, ClaimIds;
      ghost var before := View();
      var left := set id | id in pending && cursor <= id;
      assert left == FromCursor(before, cursor);
      var ids: seq<nat> := [];
      var wanted: nat, attempts: nat := count, ATTEMPTS_PER_CLAIM * count;
      ClaimingStart(cfg, before, cursor, count);
      while left != {} && wanted > 0 && attempts > 0
        invariant left <= pending.Keys && before == View()
        invariant Claiming(cfg, before, left, ids, wanted, attempts, ClaimIds(cfg, before, cursor, count))
        decreases |left|
      {
        var id := Min(left);
        ClaimingNext(cfg, before, left, ids, wanted, attempts, ClaimIds(cfg, before, cursor, count));
        if pending[id].deliveredAt + cfg.reclaimMs <= now {
          ids := ids + [id];
          wanted := wanted - 1;
        }
        attempts := attempts - 1;
        left := left - {id};
      }
      var next := if left == {} then 0 else Min(left);
      ClaimingEnd(cfg, before, left, ids, wanted, attempts, ClaimIds(cfg, before, cursor, count));
      reply := Some((Holding(stream, ids), next, |ids|));
      ClaimDelivers(cfg, before, owner, cursor, count);
      HandOver(ids, owner);
    }

    // --------------------------------------------------------------------------------------------
    // Scripts
    // --------------------------------------------------------------------------------------------

    /** The admission script. */
    method AdmitScript(cfg: Config, eventId: string, payload: string, fault: Fault) returns (reply: RawReply)
      modifies this
      ensures View() == Admit(cfg, old(View()), eventId, payload, fault).world
      ensures reply == match Admit(cfg, old(View()), eventId, payload, fault).reply
                       case Conflict => Pair(-1, 0)
                       case Full => Pair(-2, 0)
                       case Duplicate => Pair(0, 0)
                       case Added(id) => Pair(1, id)
                       case ScriptError => ErrorReply
      ensures fault != NoFault ==> View() == old(View())
    {
      var key := IdempotencyKey(cfg.stream, eventId);
      var digest := cfg.digest(payload);
      var prior := Get(key);
      if prior.Some? {
        if prior.value != digest {
          return Pair(-1, 0);
        }
        return Pair(0, 0);
      }
      if fault == WrongType {
        return ErrorReply;
      }
      if |stream| >= cfg.maxQueue {
        return Pair(-2, 0);
      }
      if fault == SetRefused {
        return ErrorReply;
      }
      ghost var before := markers;
      SetEx(key, digest, cfg.admitTtl);
      if fault == AppendRefused {
        Del(key);
        assert markers == before;
        return ErrorReply;
      }
      var id := AddInput(Entry(Some(eventId), Some(payload)), Admitted(eventId, payload, now));
      return Pair(1, id);
    }

    /** XADD to the output stream of a request. */
    method AddOutput(ask: Ask)
      modifies this`published, this`rejected
      ensures View() == Publish(old(View()), ask)
    {
      var line := Publication(ask.id, ask.eventId, ask.body, now);
      if ask.dead {
        rejected := rejected + [line];
      } else {
        published := published + [line];
      }
    }

    /** XACK and XDEL of one input entry. */
    method AckAndDelete(id: nat)
      modifies this`pending, this`stream, this`removed
      ensures View() == Remove(old(View()), id)
    {
      pending := pending - {id};
      if id in stream {
        removed := removed[id := now];
      }
      stream := stream - {id};
    }

    /** The completion script; a negative code is a caught error. */
    method FinishScript(cfg: Config, ask: Ask, fault: Fault, ghost ticket: nat) returns (code: int)
      modifies this
      ensures FinishOutcome(View(), code) == FinishAsk(cfg, old(View()), ticket, ask, fault)
      ensures code < 0 ==> View() == old(View())
    {
      var prior := Get(ask.key);
      if prior.None? {
        if fault == WrongType || fault == SetRefused {
          return -1;
        }
        ghost var before := markers;
        SetEx(ask.key, "1", cfg.workTtl);
        if fault == AppendRefused {
          Del(ask.key);
          assert markers == before;
          return -1;
        }
        AddOutput(ask);
      }
      AckAndDelete(ask.id);
      completed := completed + [Completion(ticket, ask.id, now, prior.None?, ask.dead)];
      code := if prior.Some? then 0 else 1;
    }

    // --------------------------------------------------------------------------------------------
    // Everybody else
    // --------------------------------------------------------------------------------------------

    /** One step of somebody else, or of the clock. */
    method Other(cfg: Config, step: Step)
      modifies this
      ensures View() == Next(cfg, old(View()), step)
    {
      hide Protocol.Admit, FinishAsk, AskFor, ReadIds, ClaimIds, Valid;
      match step
      case Pass(ms) =>
        Elapse(ms);
      case Submit(event, fault) =>
        if Valid(event) {
          var _ := AdmitScript(cfg, event.eventId, cfg.encode(event), fault);
        }
      case Write(entry) =>
        var _ := WriteForeign(entry);
      case CreateGroup =>
        var _ := CreateGroup();
      case Read(owner, count) =>
        var _ := ReadNew(owner, count);
      case Claim(owner, cursor, count) =>
        var _ := ClaimIdle(cfg, owner, cursor, count);
      case Complete(ticket, fault) =>
        if ticket < |delivered| && delivered[ticket].id in appended {
          var id := delivered[ticket].id;
          var _ := FinishScript(cfg, AskFor(cfg, id, appended[id].Content()), fault, ticket);
        }
    }

    /** What everybody else does in the meantime. */
    method Others(cfg: Config, steps: seq<Step>)
      modifies this
      ensures View() == Run(cfg, old(View()), steps)
    {
      hide Next;
      for i := 0 to |steps|
        invariant View() == Run(cfg, old(View()), steps[..i])
      {
        assert steps[..i + 1][..i] == steps[..i];
        Other(cfg, steps[i]);
      }
      assert steps[..|steps|] == steps;
    }
  }
}
