/**
  How many undisturbed rounds of one worker clear a backlog, whatever happened before and wherever the claim
  cursor was left.
 */
module Recovery {
  import opened Wrappers
  import opened Ordered
  import opened Protocol
  import opened Refinement
  import opened Safety
  import opened Lease
  import opened Commands
  import opened Cycle

  // ----------------------------------------------------------------------------------------------
  // Rounds
  // ----------------------------------------------------------------------------------------------

  /** How many batches of b it takes to hand over n entries. */
  function BatchCount(n: nat, b: nat): nat
    requires b > 0
  {
    if n == 0 then 0 else 1 + BatchCount(if n <= b then 0 else n - b, b)
  }

  lemma {:induction false} BatchCountIsCeiling(n: nat, b: nat, k: nat)
    requires b > 0
    ensures BatchCount(n, b) <= k <==> n <= k * b
    decreases n
  {
    if n > 0 {
      if k == 0 {
      } else {
        BatchCountIsCeiling(if n <= b then 0 else n - b, b, k - 1);
        assert k * b == (k - 1) * b + b;
        if n <= b { assert (k - 1) * b >= 0; }
      }
    }
  }

  lemma {:induction false} BatchCountAdd(m: nat, n: nat, b: nat)
    requires b > 0
    ensures BatchCount(m, b) <= BatchCount(m + n, b)
    ensures BatchCount(m, b) + BatchCount(n, b) <= BatchCount(m + n, b) + 1
    decreases m
  {
    if m > b {
      BatchCountAdd(m - b, n, b);
    } else if m > 0 {
      BatchCountOneLess(n, m, b);
    }
  }

  lemma {:induction false} BatchCountOneLess(n: nat, m: nat, b: nat)
    requires b > 0
    ensures BatchCount(n, b) <= BatchCount(m + n, b)
    decreases n
  {
    if n <= b {
    } else {
      BatchCountOneLess(n - b, m, b);
    }
  }

  /**
    Claims needed when hi pending entries lie at or above the cursor and lo below it: a pass to the end, even if
    it finds nothing, before the cursor wraps and the rest can be claimed.
   */
  function ClaimsNeeded(hi: nat, lo: nat, b: nat): nat
    requires b > 0
  {
    if lo == 0 then BatchCount(hi, b) else (if hi == 0 then 1 else BatchCount(hi, b)) + BatchCount(lo, b)
  }

  lemma ClaimsNeededBound(hi: nat, lo: nat, b: nat)
    requires b > 0
    ensures ClaimsNeeded(hi, lo, b) <= 1 + BatchCount(hi + lo, b)
    ensures ClaimsNeeded(hi, lo, b) == 0 <==> hi + lo == 0
  {
    BatchCountAdd(hi, lo, b);
  }

  // ----------------------------------------------------------------------------------------------
  // Undisturbed
  // ----------------------------------------------------------------------------------------------

  /** Nothing happens but the passing of time. */
  ghost predicate OnlyTime(steps: seq<Step>) { forall i :: 0 <= i < |steps| ==> steps[i].Pass? }

  /** The pipeline is answered and no script fails; between the scripts any time may pass. */
  ghost predicate QuietPipe(pipe: Pipe) {
    && pipe.answered
    && (forall i :: 0 <= i < |pipe.faults| ==> pipe.faults[i] == NoFault)
    && (forall i :: 0 <= i < |pipe.others| ==> OnlyTime(pipe.others[i]))
  }

  /** A round in which nothing goes wrong and nobody else acts, however long its parts take. */
  ghost predicate Quiet(weather: Weather) {
    && weather.claim == Answered && QuietPipe(weather.claimPipe) && OnlyTime(weather.beforeRead)
    && weather.read == Answered && QuietPipe(weather.readPipe)
  }

  ghost predicate QuietDays(days: seq<Day>) {
    forall i :: 0 <= i < |days| ==> OnlyTime(days[i].before) && Quiet(days[i].weather)
  }

  function Elapsed(steps: seq<Step>): nat {
    if steps == [] then 0
    else Elapsed(steps[..|steps| - 1]) + if steps[|steps| - 1].Pass? then steps[|steps| - 1].ms else 0
  }

  /** v is w some time later. */
  ghost predicate Later(v: World, w: World, ms: nat) {
    v.stream == w.stream && v.pending == w.pending && v.now == w.now + ms && v.group == w.group
  }

  lemma {:induction false} TimePasses(cfg: Config, w: World, steps: seq<Step>)
    requires OnlyTime(steps)
    ensures Later(Run(cfg, w, steps), w, Elapsed(steps))
  {
    if steps == [] {
    } else {
      var n := |steps| - 1;
      TimePasses(cfg, w, steps[..n]);
      assert steps[n].Pass?;
    }
  }

  // ----------------------------------------------------------------------------------------------
  // One undisturbed batch
  // ----------------------------------------------------------------------------------------------

  function IdsHeld(batch: seq<Held>): set<nat> { set h | h in batch :: h.id }

  /** v is w some time later without the given entries, the group untouched. */
  ghost predicate Without(v: World, w: World, ids: set<nat>) {
    v.stream == w.stream - ids && v.pending == w.pending - ids && w.now <= v.now && v.group == w.group
  }

  lemma WithoutMore(u: World, v: World, w: World, a: set<nat>, b: set<nat>)
    requires Without(v, w, a) && Without(u, v, b)
    ensures Without(u, w, a + b)
  {
    DropTwice(w.stream, a, b);
    DropTwice(w.pending, a, b);
  }

  lemma HeldMore(batch: seq<Held>)
    requires batch != []
    ensures IdsHeld(batch) == IdsHeld(batch[..|batch| - 1]) + {batch[|batch| - 1].id}
  {
    assert batch == batch[..|batch| - 1] + [batch[|batch| - 1]];
    assert forall h :: h in batch <==> h in batch[..|batch| - 1] || h == batch[|batch| - 1];
  }

  lemma QuietAt(cfg: Config, w: World, pipe: Pipe, i: nat)
    requires QuietPipe(pipe)
    ensures FaultAt(pipe.faults, i) == NoFault
    ensures Without(Run(cfg, w, OthersAt(pipe.others, i)), w, {})
  {
    hide Run;
    TimePasses(cfg, w, OthersAt(pipe.others, i));
    assert w.stream - {} == w.stream && w.pending - {} == w.pending;
  }

  lemma CalmOneMore(cfg: Config, w: World, batch: seq<Held>, ticket: nat, pipe: Pipe)
    requires batch != [] && QuietPipe(pipe)
    ensures var n := |batch| - 1;
            var before := RunPipe(cfg, w, batch[..n], ticket, pipe);
            Without(RunPipe(cfg, w, batch, ticket, pipe).world, before.world, {batch[n].id})
  {
    hide FinishAsk, AskFor, Without, FaultAt, OthersAt, Run, RunPipe, QuietPipe;
    var n := |batch| - 1;
    var before := RunPipe(cfg, w, batch[..n], ticket, pipe);
    var reached := Run(cfg, before.world, OthersAt(pipe.others, n));
    PipeLast(cfg, w, batch, ticket, pipe);
    QuietAt(cfg, before.world, pipe, n);
    AskIsFor(cfg, batch[n].id, batch[n].entry);
    CalmFinish(cfg, reached, ticket + n, AskFor(cfg, batch[n].id, batch[n].entry));
    WithoutLater(RunPipe(cfg, w, batch, ticket, pipe).world, reached, before.world, {batch[n].id});
  }

  lemma AskIsFor(cfg: Config, id: nat, entry: Entry)
    ensures AskFor(cfg, id, entry).id == id
  {
  }

  lemma WithoutLater(u: World, v: World, w: World, ids: set<nat>)
    requires Without(v, w, {}) && Without(u, v, ids)
    ensures Without(u, w, ids)
  {
    WithoutMore(u, v, w, {}, ids);
    assert {} + ids == ids;
  }

  lemma CalmOneCode(cfg: Config, w: World, batch: seq<Held>, ticket: nat, pipe: Pipe)
    requires batch != [] && QuietPipe(pipe)
    ensures var before := RunPipe(cfg, w, batch[..|batch| - 1], ticket, pipe);
            exists code: nat :: RunPipe(cfg, w, batch, ticket, pipe).codes == before.codes + [code]
  {
    hide FinishAsk, AskFor, FaultAt, OthersAt, Run, RunPipe, QuietPipe;
    var n := |batch| - 1;
    var before := RunPipe(cfg, w, batch[..n], ticket, pipe);
    var reached := Run(cfg, before.world, OthersAt(pipe.others, n));
    var ask := AskFor(cfg, batch[n].id, batch[n].entry);
    PipeLast(cfg, w, batch, ticket, pipe);
    QuietAt(cfg, before.world, pipe, n);
    CalmFinish(cfg, reached, ticket + n, ask);
    var code: nat := FinishAsk(cfg, reached, ticket + n, ask, NoFault).code;
    assert RunPipe(cfg, w, batch, ticket, pipe).codes == before.codes + [code];
  }

  lemma {:induction false} CalmPipe(cfg: Config, w: World, batch: seq<Held>, ticket: nat, pipe: Pipe)
    requires QuietPipe(pipe)
    ensures Without(RunPipe(cfg, w, batch, ticket, pipe).world, w, IdsHeld(batch))
    ensures |RunPipe(cfg, w, batch, ticket, pipe).codes| == |batch|
    ensures forall i :: 0 <= i < |batch| ==> RunPipe(cfg, w, batch, ticket, pipe).codes[i] >= 0
  {
    if batch == [] {
      assert IdsHeld(batch) == {};
      assert w.stream - {} == w.stream && w.pending - {} == w.pending;
    } else {
      hide Without, IdsHeld, RunPipe, QuietPipe;
      var n := |batch| - 1;
      CalmPipe(cfg, w, batch[..n], ticket, pipe);
      CalmOneMore(cfg, w, batch, ticket, pipe);
      CalmOneCode(cfg, w, batch, ticket, pipe);
      HeldMore(batch);
      var before, after := RunPipe(cfg, w, batch[..n], ticket, pipe), RunPipe(cfg, w, batch, ticket, pipe);
      WithoutMore(after.world, before.world, w, IdsHeld(batch[..n]), {batch[n].id});
    }
  }

  lemma {:induction false} NoFailures(codes: seq<int>, dead: seq<bool>)
    requires |codes| == |dead|
    requires forall i :: 0 <= i < |codes| ==> codes[i] >= 0
    ensures CountAll(codes, dead).failures == 0
  {
    if codes == [] {
    } else {
      NoFailures(codes[..|codes| - 1], dead[..|dead| - 1]);
    }
  }

  lemma CalmFinish(cfg: Config, w: World, ticket: nat, ask: Ask)
    ensures FinishAsk(cfg, w, ticket, ask, NoFault).code >= 0
    ensures Without(FinishAsk(cfg, w, ticket, ask, NoFault).world, w, {ask.id})
  {
  }

  lemma CalmProcess(cfg: Config, w: World, batch: seq<Held>, ticket: nat, pipe: Pipe)
    requires QuietPipe(pipe)
    ensures ProcessBatch(cfg, w, batch, ticket, pipe).ok
    ensures Without(ProcessBatch(cfg, w, batch, ticket, pipe).world, w, IdsHeld(batch))
  {
    if batch == [] {
      assert IdsHeld(batch) == {};
      assert w.stream - {} == w.stream && w.pending - {} == w.pending;
    } else {
      hide RunPipe, Run, OthersAt, Without, IdsHeld;
      var piped := RunPipe(cfg, w, batch, ticket, pipe);
      CalmPipe(cfg, w, batch, ticket, pipe);
      QuietAt(cfg, piped.world, pipe, |batch|);
      WithoutMore(Run(cfg, piped.world, OthersAt(pipe.others, |batch|)), piped.world, w, IdsHeld(batch), {});
      assert IdsHeld(batch) + {} == IdsHeld(batch);
      NoFailures(piped.codes, DeadFlags(cfg, batch));
    }
  }

  lemma HoldingIds(w: World, ids: seq<nat>)
    requires forall id :: id in ids ==> id in w.stream
    ensures IdsHeld(Holding(w.stream, ids)) == SetOf(ids)
  {
    var batch := Holding(w.stream, ids);
    forall id ensures id in IdsHeld(batch) <==> id in SetOf(ids) {
      if id in SetOf(ids) {
        var i :| 0 <= i < |ids| && ids[i] == id;
        assert batch[i].id == id;
      }
    }
  }

  /** Handing ids to a worker and finishing them undisturbed takes exactly them out. */
  lemma CalmBatch(cfg: Config, w: World, ids: seq<nat>, owner: string, group: Option<nat>, pipe: Pipe)
    requires QuietPipe(pipe) && forall id :: id in ids ==> id in w.stream
    ensures var held := Deliver(w, ids, owner).(group := group);
            var o := ProcessBatch(cfg, held, Holding(w.stream, ids), |w.delivered|, pipe);
            o.ok && Without(o.world, w.(group := group), SetOf(ids))
  {
    hide ProcessBatch, Holding;
    var held := Deliver(w, ids, owner).(group := group);
    CalmProcess(cfg, held, Holding(w.stream, ids), |w.delivered|, pipe);
    HoldingIds(w, ids);
    assert held.pending - SetOf(ids) == w.pending - SetOf(ids);
  }

  // ----------------------------------------------------------------------------------------------
  // One undisturbed round
  // ----------------------------------------------------------------------------------------------

  /** The group exists, and everything pending has been idle long enough to be claimed. */
  ghost predicate Resumable(cfg: Config, w: World) {
    && w.group.Some? && cfg.batch > 0
    && w.pending.Keys == (set id | id in w.stream && id <= w.group.value)
    && forall id :: id in w.pending ==> Idle(cfg, w, id)
  }

  function Above(w: World, cursor: nat): nat { |FromCursor(w, cursor)| }

  function Below(w: World, cursor: nat): nat { |w.pending.Keys - FromCursor(w, cursor)| }

  lemma {:induction false} ScanAllIdle(cfg: Config, w: World, left: set<nat>, count: nat, attempts: nat)
    requires left <= w.pending.Keys && attempts >= count
    requires forall id :: id in left ==> Idle(cfg, w, id)
    ensures ClaimScan(cfg, w, left, count, attempts).claimed == FirstK(left, count)
    ensures var rest := left - SetOf(FirstK(left, count));
            ClaimScan(cfg, w, left, count, attempts).next == if rest == {} then 0 else Min(rest)
    decreases count
  {
    if left == {} {
    } else if count == 0 {
      assert left - SetOf([]) == left;
    } else {
      var id := Min(left);
      ScanAllIdle(cfg, w, left - {id}, count - 1, attempts - 1);
      SetOfCons(id, FirstK(left - {id}, count - 1));
      assert left - SetOf(FirstK(left, count)) == (left - {id}) - SetOf(FirstK(left - {id}, count - 1));
    }
  }

  lemma CursorAdvances(w: World, v: World, cursor: nat, claimed: set<nat>)
    requires v.pending == w.pending - claimed && claimed <= FromCursor(w, cursor)
    requires forall x, y :: x in claimed && y in FromCursor(w, cursor) && y !in claimed ==> x < y
    requires FromCursor(w, cursor) - claimed != {}
    ensures var next := Min(FromCursor(w, cursor) - claimed);
            && FromCursor(v, next) == FromCursor(w, cursor) - claimed
            && v.pending.Keys - FromCursor(v, next) == w.pending.Keys - FromCursor(w, cursor)
  {
    var rest := FromCursor(w, cursor) - claimed;
    var next := Min(rest);
    forall id ensures id in FromCursor(v, next) <==> id in rest {
    }
    assert FromCursor(v, next) == rest;
  }

  lemma CursorWraps(w: World, v: World, cursor: nat)
    requires v.pending == w.pending - FromCursor(w, cursor)
    ensures FromCursor(v, 0) == w.pending.Keys - FromCursor(w, cursor)
    ensures v.pending.Keys - FromCursor(v, 0) == {}
  {
  }

  /** How a claim moves the cursor: the claimed entries come off the top part, and an exhausted top part wraps. */
  lemma ClaimMoves(cfg: Config, w: World, v: World, cursor: nat)
    requires Resumable(cfg, w)
    requires v.pending == w.pending - SetOf(ClaimIds(cfg, w, cursor, cfg.batch).claimed)
    ensures var next := ClaimIds(cfg, w, cursor, cfg.batch).next;
            var hi, lo, b := Above(w, cursor), Below(w, cursor), cfg.batch;
            if hi > b then Above(v, next) == hi - b && Below(v, next) == lo
            else Above(v, next) == lo && Below(v, next) == 0
  {
    hide ClaimScan, FirstK, FromCursor;
    var left := FromCursor(w, cursor);
    var claimed := SetOf(FirstK(left, cfg.batch));
    CursorPending(w, cursor);
    ScanAllIdle(cfg, w, left, cfg.batch, ATTEMPTS_PER_CLAIM * cfg.batch);
    FirstKLowest(left, cfg.batch);
    FirstKSize(left, cfg.batch);
    if left - claimed == {} {
      assert claimed == left;
      CursorWraps(w, v, cursor);
    } else {
      CursorAdvances(w, v, cursor, claimed);
    }
  }

  lemma CursorPending(w: World, cursor: nat)
    ensures FromCursor(w, cursor) <= w.pending.Keys
  {
  }

  lemma StillResumable(cfg: Config, w: World, v: World, ids: set<nat>)
    requires Resumable(cfg, w) && Without(v, w, ids)
    ensures Resumable(cfg, v)
    ensures ids <= w.pending.Keys ==> Undelivered(v) == Undelivered(w)
  {
  }

  /** What one undisturbed claim does to the backlog. */
  lemma CalmClaim(cfg: Config, w: World, owner: string, me: Memory, weather: Weather)
    requires Resumable(cfg, w) && Quiet(weather)
    ensures var o := ClaimRound(cfg, w, owner, me, weather);
            var hi, lo, b := Above(w, me.cursor), Below(w, me.cursor), cfg.batch;
            && o.ok && Resumable(cfg, o.world) && w.now <= o.world.now
            && Undelivered(o.world) == Undelivered(w)
            && o.memory.lastClaim == (if ClaimDue(w, me) then o.world.now else me.lastClaim)
            && (if !ClaimDue(w, me) then Above(o.world, o.memory.cursor) == hi && Below(o.world, o.memory.cursor) == lo
                else if hi > b then Above(o.world, o.memory.cursor) == hi - b && Below(o.world, o.memory.cursor) == lo
                else Above(o.world, o.memory.cursor) == lo && Below(o.world, o.memory.cursor) == 0)
  {
    if ClaimDue(w, me) {
      hide ProcessBatch, ClaimIds, Holding, Above, Below, Resumable, Undelivered, Without, QuietPipe;
      var ids := ClaimIds(cfg, w, me.cursor, cfg.batch).claimed;
      ClaimsPending(cfg, w, me.cursor);
      assert Deliver(w, ids, owner).(group := w.group) == Deliver(w, ids, owner);
      CalmBatch(cfg, w, ids, owner, w.group, weather.claimPipe);
      assert w.(group := w.group) == w;
      var v := ClaimRound(cfg, w, owner, me, weather).world;
      assert Without(v, w, SetOf(ids));
      StillResumable(cfg, w, v, SetOf(ids));
      WithoutPending(v, w, SetOf(ids));
      ClaimMoves(cfg, w, v, me.cursor);
    }
  }

  /**
    Until a second after the last claim an undisturbed claiming part does nothing. From then on it takes out, from the
    cursor upwards, exactly the entries whose last delivery is a full reclaim time ago, up to the next cursor, which is
    where a batch is full, or ten times as many entries have been looked at, or 0 after the last.
   */
  lemma CalmClaimTakes(cfg: Config, w: World, owner: string, me: Memory, weather: Weather)
    requires Quiet(weather) && w.group.Some? && forall id :: id in w.pending ==> 0 < id && id in w.stream
    ensures var o := ClaimRound(cfg, w, owner, me, weather);
            var next, looked := o.memory.cursor, Looked(w, me.cursor, o.memory.cursor);
            var taken := IdleOf(cfg, w, looked);
            if w.now < me.lastClaim + 1000 then o == RoundOutcome(w, me, true)
            else
              && o.ok && Without(o.world, w, taken) && o.memory.lastClaim == o.world.now
              && |taken| <= cfg.batch && |looked| <= 10 * cfg.batch
              && (next == 0 || (next in w.pending && (|taken| == cfg.batch || |looked| == 10 * cfg.batch)))
  {
    if me.lastClaim + 1000 <= w.now {
      hide ProcessBatch, ClaimIds, Holding, Without, QuietPipe, Ascending, HandedTo, IdleOf, Looked;
      var scan := ClaimIds(cfg, w, me.cursor, cfg.batch);
      ClaimBounds(cfg, w, owner, me.cursor);
      CalmBatch(cfg, w, scan.claimed, owner, w.group, weather.claimPipe);
      assert Deliver(w, scan.claimed, owner).(group := w.group) == Deliver(w, scan.claimed, owner);
      assert w.(group := w.group) == w;
    }
  }

  /** What a claim hands over, as a set. */
  lemma ClaimBounds(cfg: Config, w: World, owner: string, cursor: nat)
    requires w.group.Some? && forall id :: id in w.pending ==> 0 < id && id in w.stream
    ensures var scan := ClaimIds(cfg, w, cursor, cfg.batch);
            var looked := Looked(w, cursor, scan.next);
            && looked <= w.pending.Keys
            && SetOf(scan.claimed) == IdleOf(cfg, w, looked) && (forall id :: id in scan.claimed ==> id in w.stream)
            && |IdleOf(cfg, w, looked)| <= cfg.batch && |looked| <= 10 * cfg.batch
            && (scan.next == 0 ||
                (scan.next in w.pending && (|IdleOf(cfg, w, looked)| == cfg.batch || |looked| == 10 * cfg.batch)))
  {
    hide ClaimIds, HandedTo;
    var scan := ClaimIds(cfg, w, cursor, cfg.batch);
    ClaimExactly(cfg, w, owner, cursor, cfg.batch);
    assert SetOf(scan.claimed) == IdleOf(cfg, w, Looked(w, cursor, scan.next));
    SetOfSize(scan.claimed);
  }

  /** Those of some pending entries whose last delivery is a full reclaim time ago. */
  function IdleOf(cfg: Config, w: World, ids: set<nat>): set<nat>
    requires ids <= w.pending.Keys
  {
    set id | id in ids && w.pending[id].deliveredAt + cfg.reclaimMs <= w.now
  }

  lemma WithoutPending(v: World, w: World, ids: set<nat>)
    requires Without(v, w, ids)
    ensures v.pending == w.pending - ids && w.now <= v.now && v.group == w.group
  {
  }

  lemma ClaimsPending(cfg: Config, w: World, cursor: nat)
    requires Resumable(cfg, w)
    ensures w.group.Some?
    ensures SetOf(ClaimIds(cfg, w, cursor, cfg.batch).claimed) <= w.pending.Keys
    ensures forall id :: id in ClaimIds(cfg, w, cursor, cfg.batch).claimed ==> id in w.stream
  {
    var ids := ClaimIds(cfg, w, cursor, cfg.batch).claimed;
    ClaimScanWithin(cfg, w, FromCursor(w, cursor), cfg.batch, ATTEMPTS_PER_CLAIM * cfg.batch);
    forall id | id in ids ensures id in w.stream {
      assert id in SetOf(ids);
      assert id in w.pending.Keys;
    }
  }

  /** What one undisturbed read does to the backlog. */
  lemma CalmRead(cfg: Config, w: World, owner: string, me: Memory, weather: Weather)
    requires Resumable(cfg, w) && Quiet(weather)
    ensures var o := ReadRound(cfg, w, owner, me, weather);
            && o.ok && Resumable(cfg, o.world) && w.now <= o.world.now && o.world.pending == w.pending
            && o.memory.cursor == me.cursor && o.memory.lastClaim == me.lastClaim
            && |Undelivered(o.world)| == Less(|Undelivered(w)|, cfg.batch)
  {
    var ids := ReadIds(w, cfg.batch);
    FirstKSize(Undelivered(w), cfg.batch);
    ReadInStream(w, cfg.batch);
    if ids == [] {
      assert SetOf(ids) == {};
      assert Holding(w.stream, ids) == [];
    } else {
      ReadTakes(w, cfg.batch);
      CalmReadSome(cfg, w, owner, me, weather);
    }
  }

  lemma CalmReadSome(cfg: Config, w: World, owner: string, me: Memory, weather: Weather)
    requires Resumable(cfg, w) && ReadIds(w, cfg.batch) != [] && Quiet(weather)
    ensures var o := ReadRound(cfg, w, owner, me, weather);
            && o.ok && Resumable(cfg, o.world) && w.now <= o.world.now && o.world.pending == w.pending
            && o.memory.cursor == me.cursor && o.memory.lastClaim == me.lastClaim
            && Undelivered(o.world) == Undelivered(w) - SetOf(ReadIds(w, cfg.batch))
  {
    hide ProcessBatch, Holding, ReadIds, QuietPipe;
    var ids := ReadIds(w, cfg.batch);
    var last := Some(ids[|ids| - 1]);
    ReadInStream(w, cfg.batch);
    ReadTakes(w, cfg.batch);
    CalmBatch(cfg, w, ids, owner, last, weather.readPipe);
    var v := ReadRound(cfg, w, owner, me, weather).world;
    assert Without(v, w.(group := last), SetOf(ids));
    assert SetOf(ids) !! w.pending.Keys;
    assert v.pending == w.pending;
    assert v.pending.Keys == (set id | id in v.stream && id <= v.group.value);
  }

  // ----------------------------------------------------------------------------------------------
  // Draining
  // ----------------------------------------------------------------------------------------------

  /** How many of the rounds find a claim due, by the clock each of them sees. */
  function DueDays(cfg: Config, w: World, owner: string, me: Memory, days: seq<Day>): nat {
    if days == [] then 0
    else
      var n := |days| - 1;
      var earlier := Rounds(cfg, w, owner, me, days[..n]);
      DueDays(cfg, w, owner, me, days[..n]) +
      if ClaimDue(Run(cfg, earlier.world, days[n].before), earlier.memory) then 1 else 0
  }

  function Less(n: nat, k: nat): nat { if n <= k then 0 else n - k }

  /** Waiting changes nothing about the backlog. */
  lemma LaterResumable(cfg: Config, w: World, v: World, ms: nat, cursor: nat)
    requires Resumable(cfg, w) && Later(v, w, ms)
    ensures Resumable(cfg, v) && Undelivered(v) == Undelivered(w)
    ensures Above(v, cursor) == Above(w, cursor) && Below(v, cursor) == Below(w, cursor)
  {
    SamePendingParts(w, v, cursor);
  }

  lemma SamePendingParts(w: World, v: World, cursor: nat)
    requires v.pending == w.pending
    ensures Above(v, cursor) == Above(w, cursor) && Below(v, cursor) == Below(w, cursor)
  {
    assert FromCursor(v, cursor) == FromCursor(w, cursor);
  }

  lemma OneClaimLess(hi: nat, lo: nat, b: nat)
    requires b > 0
    ensures Less(ClaimsNeeded(hi, lo, b), 1) == if hi > b then ClaimsNeeded(hi - b, lo, b) else ClaimsNeeded(lo, 0, b)
  {
    assert BatchCount(0, b) == 0;
  }

  /** The claims a worker with that cursor still needs. */
  function ClaimsLeft(cfg: Config, w: World, cursor: nat): nat
    requires cfg.batch > 0
  {
    ClaimsNeeded(Above(w, cursor), Below(w, cursor), cfg.batch)
  }

  /**
    One undisturbed round, however long its parts take, takes one off the claims needed when a claim is due, and a
    batch off the undelivered.
   */
  lemma CalmRound(cfg: Config, w: World, owner: string, me: Memory, weather: Weather)
    requires Resumable(cfg, w) && Quiet(weather) && cfg.batch > 0
    ensures var o := Round(cfg, w, owner, me, weather);
            && o.ok && Resumable(cfg, o.world) && w.now <= o.world.now
            && (if ClaimDue(w, me) then w.now <= o.memory.lastClaim <= o.world.now
                else o.memory.lastClaim == me.lastClaim)
            && |Undelivered(o.world)| == Less(|Undelivered(w)|, cfg.batch)
            && ClaimsLeft(cfg, o.world, o.memory.cursor) ==
               Less(ClaimsLeft(cfg, w, me.cursor), if ClaimDue(w, me) then 1 else 0)
  {
    hide ClaimRound, ReadRound, Resumable, Above, Below, Undelivered, ClaimsNeeded, Run, QuietPipe, Later;
    OneClaimLess(Above(w, me.cursor), Below(w, me.cursor), cfg.batch);
    CalmClaim(cfg, w, owner, me, weather);
    var c := ClaimRound(cfg, w, owner, me, weather);
    var v := Run(cfg, c.world, weather.beforeRead);
    TimePasses(cfg, c.world, weather.beforeRead);
    LaterResumable(cfg, c.world, v, Elapsed(weather.beforeRead), c.memory.cursor);
    LaterClock(v, c.world, Elapsed(weather.beforeRead));
    CalmRead(cfg, v, owner, c.memory, weather);
    var o := ReadRound(cfg, v, owner, c.memory, weather);
    SamePendingParts(v, o.world, c.memory.cursor);
  }

  lemma LaterClock(v: World, w: World, ms: nat)
    requires Later(v, w, ms)
    ensures v.now == w.now + ms
  {
  }

  lemma QuietInit(days: seq<Day>)
    requires QuietDays(days) && days != []
    ensures var n := |days| - 1; QuietDays(days[..n]) && OnlyTime(days[n].before) && Quiet(days[n].weather)
  {
  }

  /** A round and the time before it. */
  lemma CalmDay(cfg: Config, w: World, owner: string, me: Memory, day: Day)
    requires Resumable(cfg, w) && OnlyTime(day.before) && Quiet(day.weather) && cfg.batch > 0
    ensures var v := Run(cfg, w, day.before);
            var o := Round(cfg, v, owner, me, day.weather);
            && v.now == w.now + Elapsed(day.before) && v.now <= o.world.now
            && Resumable(cfg, o.world)
            && (me.lastClaim <= w.now ==> o.memory.lastClaim <= o.world.now)
            && |Undelivered(o.world)| == Less(|Undelivered(w)|, cfg.batch)
            && ClaimsLeft(cfg, o.world, o.memory.cursor) ==
               Less(ClaimsLeft(cfg, w, me.cursor), if ClaimDue(v, me) then 1 else 0)
  {
    hide Round, Resumable, Above, Below, Undelivered, ClaimsLeft, Run, Quiet, Later, OnlyTime;
    var v := Run(cfg, w, day.before);
    TimePasses(cfg, w, day.before);
    LaterResumable(cfg, w, v, Elapsed(day.before), me.cursor);
    LaterClock(v, w, Elapsed(day.before));
    LaterClaims(cfg, w, v, me.cursor);
    CalmRound(cfg, v, owner, me, day.weather);
  }

  /** What so many rounds, so many of them with a claim, leave of a backlog. */
  ghost predicate Progress(cfg: Config, w: World, me: Memory, o: RoundOutcome, rounds: nat, due: nat)
    requires cfg.batch > 0
  {
    && Resumable(cfg, o.world) && w.now <= o.world.now
    && (me.lastClaim <= w.now ==> o.memory.lastClaim <= o.world.now)
    && |Undelivered(o.world)| == Less(|Undelivered(w)|, rounds * cfg.batch)
    && ClaimsLeft(cfg, o.world, o.memory.cursor) == Less(ClaimsLeft(cfg, w, me.cursor), due)
  }

  lemma NoProgress(cfg: Config, w: World, me: Memory)
    requires cfg.batch > 0 && Resumable(cfg, w)
    ensures Progress(cfg, w, me, RoundOutcome(w, me, true), 0, 0)
  {
  }

  lemma LessTwice(x: nat, a: nat, b: nat)
    ensures Less(Less(x, a), b) == Less(x, a + b)
  {
  }

  lemma MoreRoom(rounds: nat, b: nat)
    ensures rounds * b >= 0 && (rounds + 1) * b == rounds * b + b
  {
  }

  lemma ProgressMore(
    cfg: Config, w: World, me: Memory, o: RoundOutcome, rounds: nat, due: nat, owner: string, day: Day)
    requires cfg.batch > 0 && Progress(cfg, w, me, o, rounds, due)
    requires OnlyTime(day.before) && Quiet(day.weather)
    ensures var v := Run(cfg, o.world, day.before);
            Progress(cfg, w, me, Round(cfg, v, owner, o.memory, day.weather), rounds + 1,
                     due + if ClaimDue(v, o.memory) then 1 else 0)
  {
    hide Round, Resumable, Undelivered, ClaimsLeft, Run, Less, ClaimDue, Quiet, OnlyTime;
    CalmDay(cfg, o.world, owner, o.memory, day);
    MoreRoom(rounds, cfg.batch);
    LessTwice(|Undelivered(w)|, rounds * cfg.batch, cfg.batch);
    LessTwice(ClaimsLeft(cfg, w, me.cursor), due, if ClaimDue(Run(cfg, o.world, day.before), o.memory) then 1 else 0);
  }

  lemma {:induction false} CalmProgress(cfg: Config, w: World, owner: string, me: Memory, days: seq<Day>)
    requires Resumable(cfg, w) && cfg.batch > 0 && QuietDays(days)
    ensures Progress(cfg, w, me, Rounds(cfg, w, owner, me, days), |days|, DueDays(cfg, w, owner, me, days))
  {
    if days == [] {
      NoProgress(cfg, w, me);
    } else {
      hide Round, Resumable, Progress, Run, QuietDays, ClaimDue;
      var n := |days| - 1;
      QuietInit(days);
      CalmProgress(cfg, w, owner, me, days[..n]);
      ProgressMore(cfg, w, me, Rounds(cfg, w, owner, me, days[..n]), n, DueDays(cfg, w, owner, me, days[..n]), owner,
          days[n]);
    }
  }

  lemma LaterClaims(cfg: Config, w: World, v: World, cursor: nat)
    requires cfg.batch > 0 && Above(v, cursor) == Above(w, cursor) && Below(v, cursor) == Below(w, cursor)
    ensures ClaimsLeft(cfg, v, cursor) == ClaimsLeft(cfg, w, cursor)
  {
  }

  lemma EmptyExactly(cfg: Config, w: World, cursor: nat)
    requires Resumable(cfg, w)
    ensures w.stream == map[] <==>
            ClaimsNeeded(Above(w, cursor), Below(w, cursor), cfg.batch) == 0 && |Undelivered(w)| == 0
  {
    ClaimsNeededBound(Above(w, cursor), Below(w, cursor), cfg.batch);
    assert w.pending.Keys == FromCursor(w, cursor) + (w.pending.Keys - FromCursor(w, cursor));
    assert |w.pending.Keys| == Above(w, cursor) + Below(w, cursor);
    assert w.stream.Keys == w.pending.Keys + Undelivered(w);
    if |w.pending.Keys| == 0 && |Undelivered(w)| == 0 {
      assert w.stream.Keys == {};
    }
  }

  /**
    Undisturbed rounds, with any pauses between them and any delays within them, empty the stream exactly when the
    rounds that find a claim due are enough for the pending part above and below the cursor, and all rounds enough
    for the undelivered part.
   */
  lemma DrainsExactly(cfg: Config, w: World, owner: string, me: Memory, days: seq<Day>)
    requires Resumable(cfg, w) && cfg.batch > 0 && QuietDays(days)
    ensures Rounds(cfg, w, owner, me, days).world.stream == map[] <==>
            && ClaimsLeft(cfg, w, me.cursor) <= DueDays(cfg, w, owner, me, days)
            && |Undelivered(w)| <= |days| * cfg.batch
  {
    hide Rounds, DueDays, Resumable, Above, Below, Undelivered, ClaimsNeeded;
    CalmProgress(cfg, w, owner, me, days);
    var o := Rounds(cfg, w, owner, me, days);
    EmptyExactly(cfg, o.world, o.memory.cursor);
  }

  /** Before each round at least a second passes. */
  ghost predicate Slow(days: seq<Day>) { forall i :: 0 <= i < |days| ==> Elapsed(days[i].before) >= 1000 }

  /** Undisturbed rounds at least a second apart all find a claim due, however long each of them takes. */
  lemma {:induction false} SlowRoundsAllDue(cfg: Config, w: World, owner: string, me: Memory, days: seq<Day>)
    requires Resumable(cfg, w) && cfg.batch > 0 && QuietDays(days) && Slow(days)
    requires me.lastClaim <= w.now
    ensures DueDays(cfg, w, owner, me, days) == |days|
  {
    if days == [] {
    } else {
      hide Rounds, Resumable, ClaimsLeft, Undelivered, Run, QuietDays, Slow, Elapsed;
      var n := |days| - 1;
      QuietInit(days);
      SlowInit(days);
      SlowRoundsAllDue(cfg, w, owner, me, days[..n]);
      CalmProgress(cfg, w, owner, me, days[..n]);
      var o := Rounds(cfg, w, owner, me, days[..n]);
      CalmDay(cfg, o.world, owner, o.memory, days[n]);
    }
  }

  lemma SlowInit(days: seq<Day>)
    requires Slow(days) && days != []
    ensures Slow(days[..|days| - 1]) && Elapsed(days[|days| - 1].before) >= 1000
  {
  }

  // ----------------------------------------------------------------------------------------------
  // Rounds that take no time
  // ----------------------------------------------------------------------------------------------

  /** Undisturbed rounds that take no time, each after a pause. */
  function CalmDays(pauses: seq<nat>): seq<Day> {
    seq(|pauses|, i requires 0 <= i < |pauses| => Day([Pass(pauses[i])], CALM))
  }

  function Sum(pauses: seq<nat>): nat {
    if pauses == [] then 0 else Sum(pauses[..|pauses| - 1]) + pauses[|pauses| - 1]
  }

  /** When a claim was last made, given when it was before. */
  function LastDue(now: nat, lastClaim: int, pauses: seq<nat>): int {
    if pauses == [] then lastClaim
    else
      var last := LastDue(now, lastClaim, pauses[..|pauses| - 1]);
      if last + 1000 <= now + Sum(pauses) then now + Sum(pauses) else last
  }

  /** How many of the rounds find a claim due: a second or more has passed since the last one that did. */
  function DueRounds(now: nat, lastClaim: int, pauses: seq<nat>): nat {
    if pauses == [] then 0
    else
      var before := pauses[..|pauses| - 1];
      DueRounds(now, lastClaim, before) +
      if LastDue(now, lastClaim, before) + 1000 <= now + Sum(pauses) then 1 else 0
  }

  lemma {:induction false} PipeTakesNoTime(cfg: Config, w: World, batch: seq<Held>, ticket: nat)
    ensures RunPipe(cfg, w, batch, ticket, UNDISTURBED).world.now == w.now
  {
    if batch == [] {
    } else {
      hide FinishAsk, AskFor, RunPipe;
      var n := |batch| - 1;
      PipeTakesNoTime(cfg, w, batch[..n], ticket);
      PipeLast(cfg, w, batch, ticket, UNDISTURBED);
      var before := RunPipe(cfg, w, batch[..n], ticket, UNDISTURBED);
      assert Run(cfg, before.world, []) == before.world;
      FinishKeepsClock(cfg, before.world, ticket + n, AskFor(cfg, batch[n].id, batch[n].entry));
    }
  }

  lemma FinishKeepsClock(cfg: Config, w: World, ticket: nat, ask: Ask)
    ensures FinishAsk(cfg, w, ticket, ask, NoFault).world.now == w.now
  {
  }

  lemma BatchTakesNoTime(cfg: Config, w: World, batch: seq<Held>, ticket: nat)
    ensures ProcessBatch(cfg, w, batch, ticket, UNDISTURBED).world.now == w.now
  {
    hide RunPipe;
    PipeTakesNoTime(cfg, w, batch, ticket);
    var v := RunPipe(cfg, w, batch, ticket, UNDISTURBED).world;
    assert Run(cfg, v, []) == v;
  }

  lemma RoundTakesNoTime(cfg: Config, w: World, owner: string, me: Memory)
    requires Resumable(cfg, w) && cfg.batch > 0
    ensures Round(cfg, w, owner, me, CALM).world.now == w.now
  {
    hide ProcessBatch, Holding, ClaimIds, ReadIds, Resumable, Undelivered, Above, Below;
    CalmClaim(cfg, w, owner, me, CALM);
    var scan := ClaimIds(cfg, w, me.cursor, cfg.batch);
    var claimed := AutoClaim(cfg, w, owner, me.cursor, cfg.batch);
    BatchTakesNoTime(cfg, claimed, Holding(w.stream, scan.claimed), |w.delivered|);
    var c := ClaimRound(cfg, w, owner, me, CALM);
    CalmRead(cfg, c.world, owner, c.memory, CALM);
    var read := ReadGroup(c.world, owner, cfg.batch);
    BatchTakesNoTime(cfg, read, Holding(c.world.stream, ReadIds(c.world, cfg.batch)), |c.world.delivered|);
    assert Run(cfg, c.world, []) == c.world;
  }

  lemma CalmDaysQuiet(pauses: seq<nat>)
    ensures QuietDays(CalmDays(pauses))
  {
  }

  lemma CalmDaysMore(pauses: seq<nat>)
    requires pauses != []
    ensures var n := |pauses| - 1;
            && CalmDays(pauses)[..n] == CalmDays(pauses[..n])
            && CalmDays(pauses)[n] == Day([Pass(pauses[n])], CALM)
  {
  }

  lemma PauseIsTick(cfg: Config, w: World, ms: nat)
    ensures Run(cfg, w, [Pass(ms)]) == Tick(w, ms)
  {
    RunOne(cfg, w, Pass(ms));
  }

  /** For rounds that take no time the count of due claims can be read off the pauses. */
  lemma {:induction false} DueByPauses(cfg: Config, w: World, owner: string, me: Memory, pauses: seq<nat>)
    requires Resumable(cfg, w) && cfg.batch > 0
    ensures var o := Rounds(cfg, w, owner, me, CalmDays(pauses));
            && o.world.now == w.now + Sum(pauses) && o.memory.lastClaim == LastDue(w.now, me.lastClaim, pauses)
    ensures DueDays(cfg, w, owner, me, CalmDays(pauses)) == DueRounds(w.now, me.lastClaim, pauses)
  {
    if pauses == [] {
    } else {
      hide Round, Resumable, ClaimsLeft, Undelivered, Run, CalmDays, Tick;
      var n := |pauses| - 1;
      DueByPauses(cfg, w, owner, me, pauses[..n]);
      CalmDaysMore(pauses);
      CalmDaysQuiet(pauses[..n]);
      CalmProgress(cfg, w, owner, me, CalmDays(pauses[..n]));
      var o := Rounds(cfg, w, owner, me, CalmDays(pauses[..n]));
      PauseIsTick(cfg, o.world, pauses[n]);
      OnePause(cfg, o.world, owner, o.memory, pauses[n]);
    }
  }

  lemma OnePause(cfg: Config, w: World, owner: string, me: Memory, pause: nat)
    requires Resumable(cfg, w) && cfg.batch > 0
    ensures var v := Tick(w, pause);
            var o := Round(cfg, v, owner, me, CALM);
            && v.now == w.now + pause && o.world.now == v.now
            && o.memory.lastClaim == if ClaimDue(v, me) then v.now else me.lastClaim
  {
    hide Round, Resumable, Above, Below, Undelivered, ClaimsLeft;
    var v := Tick(w, pause);
    LaterResumable(cfg, w, v, pause, me.cursor);
    CalmRound(cfg, v, owner, me, CALM);
    RoundTakesNoTime(cfg, v, owner, me);
  }

  /** Rounds that take no time: the condition in terms of the state, the last claim and the pauses alone. */
  lemma DrainsByPauses(cfg: Config, w: World, owner: string, me: Memory, pauses: seq<nat>)
    requires Resumable(cfg, w) && cfg.batch > 0
    ensures Rounds(cfg, w, owner, me, CalmDays(pauses)).world.stream == map[] <==>
            && ClaimsLeft(cfg, w, me.cursor) <= DueRounds(w.now, me.lastClaim, pauses)
            && |Undelivered(w)| <= |pauses| * cfg.batch
  {
    hide Rounds, DueDays, DueRounds, Resumable, ClaimsLeft, Undelivered;
    CalmDaysQuiet(pauses);
    DrainsExactly(cfg, w, owner, me, CalmDays(pauses));
    DueByPauses(cfg, w, owner, me, pauses);
  }

  // ----------------------------------------------------------------------------------------------
  // After anything
  // ----------------------------------------------------------------------------------------------

  lemma BatchConfigured(cfg: Config, w: World)
    requires Live(cfg, w)
    ensures cfg.batch > 0
  {
  }

  /** The state in which a worker resumes after any past: the group exists and the reclaim time has passed. */
  lemma AnyPastResumable(cfg: Config, w: World)
    requires Live(cfg, w)
    ensures Resumable(cfg, Tick(EnsureGroup(w), cfg.reclaimMs))
  {
    hide Live, Closed;
    Shape(cfg, w);
    LeaseFacts(cfg, w);
    assert cfg.batch > 0 by { BatchConfigured(cfg, w); }
    var v := Tick(EnsureGroup(w), cfg.reclaimMs);
    forall id | id in w.stream ensures id > 0 {
      assert id in Abs(w).unfinished;
    }
    assert v.pending.Keys == (set id | id in v.stream && id <= v.group.value);
  }

  /**
    After any run whatsoever - crashes, failures, abandoned batches, a cursor left anywhere - one worker that
    then runs undisturbed, once the reclaim time has passed, empties the stream in 1 + ceil(p / b) rounds or
    ceil(u / b), whichever is more, for p pending and u undelivered entries, however long its commands take.
   */
  lemma RecoversFromAnything(cfg: Config, w: World, owner: string, me: Memory, days: seq<Day>)
    requires Live(cfg, w)
    requires me.lastClaim <= w.now
    requires QuietDays(days) && Slow(days)
    requires cfg.batch > 0
    requires 1 + BatchCount(|w.pending|, cfg.batch) <= |days| && BatchCount(|Undelivered(w)|, cfg.batch) <= |days|
    ensures Rounds(cfg, Tick(EnsureGroup(w), cfg.reclaimMs), owner, me, days).world.stream == map[]
  {
    hide Live, Rounds, DueDays, ClaimsNeeded, QuietDays, Slow;
    AnyPastResumable(cfg, w);
    var v := Tick(EnsureGroup(w), cfg.reclaimMs);
    SlowRoundsAllDue(cfg, v, owner, me, days);
    DrainsExactly(cfg, v, owner, me, days);
    SameBacklog(cfg, w);
    ClaimsNeededBound(Above(v, me.cursor), Below(v, me.cursor), cfg.batch);
    PartsAddUp(v, me.cursor);
    BatchCountIsCeiling(|Undelivered(v)|, cfg.batch, |days|);
  }

  lemma PartsAddUp(w: World, cursor: nat)
    ensures Above(w, cursor) + Below(w, cursor) == |w.pending|
  {
    assert w.pending.Keys == FromCursor(w, cursor) + (w.pending.Keys - FromCursor(w, cursor));
    assert |w.pending| == |w.pending.Keys|;
  }

  lemma SameBacklog(cfg: Config, w: World)
    requires Live(cfg, w)
    ensures var v := Tick(EnsureGroup(w), cfg.reclaimMs);
            v.pending == w.pending && Undelivered(v) == Undelivered(w)
  {
    Shape(cfg, w);
    var v := Tick(EnsureGroup(w), cfg.reclaimMs);
    forall id | id in w.stream ensures id > 0 {
      assert id in Abs(w).unfinished;
    }
    assert Undelivered(v) == Undelivered(w);
  }
}
