/**
  One round of the worker's consume loop as a function of the shared state, the worker's memory and its
  surroundings: which commands arrive, how far a pipeline gets, which scripts fail, which replies are lost, and
  what the clock and everybody else do between any two of its commands.
 */
module Cycle {
  import opened Ordered
  import opened Protocol
  import opened Refinement

  /** An entry as a worker holds it after a delivery. */
  datatype Held = Held(id: nat, entry: Entry)

  /** A command is never sent, or runs without its reply arriving, or runs and is answered. */
  datatype Link = Unsent | ReplyLost | Answered

  /**
    How a pipeline of completion scripts fares. When it is not answered, only the first ran scripts run. Meanwhile
    others[i] is what everybody else does before script i reaches Redis, the passing of time included, and
    others[n], for n scripts, what happens before the reply is there.
   */
  datatype Pipe = Pipe(ran: nat, faults: seq<Fault>, others: seq<seq<Step>>, answered: bool)

  /** How a round fares: its two commands, their pipelines, and what everybody else does between them. */
  datatype Weather = Weather(
    claim: Link,
    claimPipe: Pipe,
    beforeRead: seq<Step>,
    read: Link,
    readPipe: Pipe,
    beforeRegroup: seq<Step>,
    regroup: Link)

  const UNDISTURBED: Pipe := Pipe(0, [], [], true)

  const CALM: Weather := Weather(Answered, UNDISTURBED, [], Answered, UNDISTURBED, [], Answered)

  datatype Tally = Tally(decisions: nat, duplicates: nat, dead: nat, failures: nat) {
    function Plus(t: Tally): Tally {
      Tally(decisions + t.decisions, duplicates + t.duplicates, dead + t.dead, failures + t.failures)
    }
  }

  /** The worker's own state. */
  datatype Memory = Memory(cursor: nat, lastClaim: int, ready: bool, errors: nat, reclaimed: nat, tally: Tally)

  function OthersAt(others: seq<seq<Step>>, i: nat): seq<Step> {
    if i < |others| then others[i] else []
  }

  function FaultAt(faults: seq<Fault>, i: nat): Fault {
    if i < |faults| then faults[i] else NoFault
  }

  // ----------------------------------------------------------------------------------------------
  // process_batch
  // ----------------------------------------------------------------------------------------------

  datatype PipeOutcome = PipeOutcome(world: World, codes: seq<int>)

  /**
    The scripts of a batch in order, each after whatever the others do first; ticket is the delivery record of
    the first entry.
   */
  function RunPipe(cfg: Config, w: World, batch: seq<Held>, ticket: nat, pipe: Pipe): PipeOutcome
    decreases |batch|
  {
    if batch == [] then PipeOutcome(w, [])
    else
      var n := |batch| - 1;
      var before := RunPipe(cfg, w, batch[..n], ticket, pipe);
      var reached := Run(cfg, before.world, OthersAt(pipe.others, n));
      var ask := AskFor(cfg, batch[n].id, batch[n].entry);
      var done := FinishAsk(cfg, reached, ticket + n, ask, FaultAt(pipe.faults, n));
      PipeOutcome(done.world, before.codes + [done.code])
  }

  /** What the reply to one script counts as. */
  function CountOf(code: int, dead: bool): Tally {
    if code < 0 then Tally(0, 0, 0, 1)
    else if code == 0 then Tally(0, 1, 0, 0)
    else if dead then Tally(0, 0, 1, 0)
    else Tally(1, 0, 0, 0)
  }

  function CountAll(codes: seq<int>, dead: seq<bool>): Tally
    requires |codes| == |dead|
  {
    if codes == [] then Tally(0, 0, 0, 0)
    else CountAll(codes[..|codes| - 1], dead[..|dead| - 1]).Plus(CountOf(codes[|codes| - 1], dead[|dead| - 1]))
  }

  function DeadFlags(cfg: Config, batch: seq<Held>): seq<bool> {
    seq(|batch|, i requires 0 <= i < |batch| => AskFor(cfg, batch[i].id, batch[i].entry).dead)
  }

  datatype BatchOutcome = BatchOutcome(world: World, tally: Tally, ok: bool)

  function Executed(batch: seq<Held>, pipe: Pipe): nat {
    if pipe.answered || pipe.ran > |batch| then |batch| else pipe.ran
  }

  lemma {:induction false} CodesPerEntry(cfg: Config, w: World, batch: seq<Held>, ticket: nat, pipe: Pipe)
    ensures |RunPipe(cfg, w, batch, ticket, pipe).codes| == |batch|
  {
    if batch == [] {
    } else {
      hide FinishAsk, AskFor, Run;
      CodesPerEntry(cfg, w, batch[..|batch| - 1], ticket, pipe);
    }
  }

  function ProcessBatch(cfg: Config, w: World, batch: seq<Held>, ticket: nat, pipe: Pipe): BatchOutcome {
    if batch == [] then BatchOutcome(w, Tally(0, 0, 0, 0), true)
    else if !pipe.answered then
      BatchOutcome(RunPipe(cfg, w, batch[..Executed(batch, pipe)], ticket, pipe).world, Tally(0, 0, 0, 0), false)
    else
      CodesPerEntry(cfg, w, batch, ticket, pipe);
      var piped := RunPipe(cfg, w, batch, ticket, pipe);
      var tally := CountAll(piped.codes, DeadFlags(cfg, batch));
      BatchOutcome(Run(cfg, piped.world, OthersAt(pipe.others, |batch|)), tally, tally.failures == 0)
  }

  // ----------------------------------------------------------------------------------------------
  // consume
  // ----------------------------------------------------------------------------------------------

  const CLAIM_PERIOD: nat := 1000

  predicate ClaimDue(w: World, me: Memory) { me.lastClaim + CLAIM_PERIOD <= w.now }

  /** The entries a claim or a read hands over; all of them are in the stream. */
  function Holding(stream: map<nat, Entry>, ids: seq<nat>): seq<Held> {
    if forall id :: id in ids ==> id in stream then
      seq(|ids|, i requires 0 <= i < |ids| => Held(ids[i], stream[ids[i]]))
    else []
  }

  datatype RoundOutcome = RoundOutcome(world: World, memory: Memory, ok: bool)

  function ClaimRound(cfg: Config, w: World, owner: string, me: Memory, weather: Weather): RoundOutcome {
    if !ClaimDue(w, me) then RoundOutcome(w, me, true)
    else if weather.claim == Unsent || w.group.None? then RoundOutcome(w, me, false)
    else
      var scan := ClaimIds(cfg, w, me.cursor, cfg.batch);
      var claimed := AutoClaim(cfg, w, owner, me.cursor, cfg.batch);
      if weather.claim == ReplyLost then RoundOutcome(claimed, me, false)
      else
        var batch := ProcessBatch(cfg, claimed, Holding(w.stream, scan.claimed), |w.delivered|, weather.claimPipe);
        var reclaimed := me.reclaimed + |scan.claimed|;
        var moved := me.(cursor := scan.next, reclaimed := reclaimed, tally := me.tally.Plus(batch.tally));
        if batch.ok then RoundOutcome(batch.world, moved.(lastClaim := batch.world.now), true)
        else RoundOutcome(batch.world, moved, false)
  }

  function ReadRound(cfg: Config, w: World, owner: string, me: Memory, weather: Weather): RoundOutcome {
    if weather.read == Unsent || w.group.None? then RoundOutcome(w, me, false)
    else
      var ids := ReadIds(w, cfg.batch);
      var read := ReadGroup(w, owner, cfg.batch);
      if weather.read == ReplyLost then RoundOutcome(read, me, false)
      else
        var batch := ProcessBatch(cfg, read, Holding(w.stream, ids), |w.delivered|, weather.readPipe);
        RoundOutcome(batch.world, me.(tally := me.tally.Plus(batch.tally)), batch.ok)
  }

  /** The body of the loop, with the failure branch that recreates the group. */
  function Round(cfg: Config, w: World, owner: string, me: Memory, weather: Weather): RoundOutcome {
    var claim := ClaimRound(cfg, w, owner, me, weather);
    var both :=
      if claim.ok then ReadRound(cfg, Run(cfg, claim.world, weather.beforeRead), owner, claim.memory, weather)
          else claim;
    if both.ok then both.(memory := both.memory.(ready := true))
    else
      var failed := Run(cfg, both.world, weather.beforeRegroup);
      RoundOutcome(
        if weather.regroup == Unsent then failed else EnsureGroup(failed),
        both.memory.(ready := false, errors := both.memory.errors + 1),
        false)
  }

  /** A round and what everybody else does before it. */
  datatype Day = Day(before: seq<Step>, weather: Weather)

  /** Where a worker is after a series of rounds. */
  function Rounds(cfg: Config, w: World, owner: string, me: Memory, days: seq<Day>): RoundOutcome {
    if days == [] then RoundOutcome(w, me, true)
    else
      var earlier := Rounds(cfg, w, owner, me, days[..|days| - 1]);
      var day := days[|days| - 1];
      Round(cfg, Run(cfg, earlier.world, day.before), owner, earlier.memory, day.weather)
  }

  // ----------------------------------------------------------------------------------------------
  // Accounting
  // ----------------------------------------------------------------------------------------------

  lemma {:induction false} CountAllSums(codes: seq<int>, dead: seq<bool>)
    requires |codes| == |dead|
    ensures var t := CountAll(codes, dead); t.decisions + t.duplicates + t.dead + t.failures == |codes|
  {
    if codes == [] {
    } else {
      CountAllSums(codes[..|codes| - 1], dead[..|dead| - 1]);
    }
  }

  /** In an answered batch every entry is counted once: as decision, dead letter, duplicate or failure. */
  lemma BatchAccounted(cfg: Config, w: World, batch: seq<Held>, ticket: nat, pipe: Pipe)
    ensures var t := ProcessBatch(cfg, w, batch, ticket, pipe).tally;
            t.decisions + t.duplicates + t.dead + t.failures == if pipe.answered then |batch| else 0
  {
    if batch != [] && pipe.answered {
      CodesPerEntry(cfg, w, batch, ticket, pipe);
      CountAllSums(RunPipe(cfg, w, batch, ticket, pipe).codes, DeadFlags(cfg, batch));
    }
  }

  lemma CountOneMore(codes: seq<int>, dead: seq<bool>, code: int, last: bool)
    requires |codes| == |dead|
    ensures CountAll(codes + [code], dead + [last]) == CountAll(codes, dead).Plus(CountOf(code, last))
  {
    assert (codes + [code])[..|codes|] == codes && (dead + [last])[..|dead|] == dead;
  }

  /** The last script of a batch, after the others. */
  lemma PipeLast(cfg: Config, w: World, batch: seq<Held>, ticket: nat, pipe: Pipe)
    requires batch != []
    ensures var n := |batch| - 1;
            var before := RunPipe(cfg, w, batch[..n], ticket, pipe);
            var reached := Run(cfg, before.world, OthersAt(pipe.others, n));
            var ask := AskFor(cfg, batch[n].id, batch[n].entry);
            var last := FinishAsk(cfg, reached, ticket + n, ask, FaultAt(pipe.faults, n));
            RunPipe(cfg, w, batch, ticket, pipe) == PipeOutcome(last.world, before.codes + [last.code])
  {
    hide FinishAsk, AskFor, FaultAt, OthersAt, Run;
  }

  /** process_batch succeeds on an empty batch, and otherwise exactly when it is answered and no script failed. */
  lemma BatchSucceedsExactly(cfg: Config, w: World, batch: seq<Held>, ticket: nat, pipe: Pipe)
    ensures ProcessBatch(cfg, w, batch, ticket, pipe).ok <==>
            batch == [] ||
            (pipe.answered && NoneNegative(RunPipe(cfg, w, batch, ticket, pipe).codes))
  {
    hide RunPipe, Run, AskFor, OthersAt;
    CodesPerEntry(cfg, w, batch, ticket, pipe);
    FailuresExactly(RunPipe(cfg, w, batch, ticket, pipe).codes, DeadFlags(cfg, batch));
  }

  ghost predicate NoneNegative(codes: seq<int>) { forall i :: 0 <= i < |codes| ==> codes[i] >= 0 }

  lemma {:induction false} FailuresExactly(codes: seq<int>, dead: seq<bool>)
    requires |codes| == |dead|
    ensures CountAll(codes, dead).failures == 0 <==> NoneNegative(codes)
  {
    if codes == [] {
    } else {
      hide CountOf, NoneNegative;
      var n := |codes| - 1;
      FailuresExactly(codes[..n], dead[..n]);
      FailureCounts(codes[n], dead[n]);
      NegativeLast(codes);
    }
  }

  lemma FailureCounts(code: int, dead: bool)
    ensures CountOf(code, dead).failures == if code < 0 then 1 else 0
  {
  }

  lemma NegativeLast(codes: seq<int>)
    requires codes != []
    ensures NoneNegative(codes) <==> NoneNegative(codes[..|codes| - 1]) && codes[|codes| - 1] >= 0
  {
    var n := |codes| - 1;
    forall i | 0 <= i < |codes| ensures codes[i] == if i < n then codes[..n][i] else codes[n] {
    }
  }

  /** An answered pipeline has run completely and counts; of any other exactly the first scripts have run, uncounted. */
  lemma PipelineRuns(cfg: Config, w: World, batch: seq<Held>, ticket: nat, pipe: Pipe)
    requires batch != []
    ensures var o := ProcessBatch(cfg, w, batch, ticket, pipe);
            var whole := RunPipe(cfg, w, batch, ticket, pipe);
            if pipe.answered then
              && o.world == Run(cfg, whole.world, OthersAt(pipe.others, |batch|))
              && |whole.codes| == |batch| && o.tally == CountAll(whole.codes, DeadFlags(cfg, batch))
            else
              && o.tally == Tally(0, 0, 0, 0)
              && (pipe.ran <= |batch| ==> o.world == RunPipe(cfg, w, batch[..pipe.ran], ticket, pipe).world)
              && (pipe.ran >= |batch| ==> o.world == whole.world)
  {
    hide RunPipe, Run, AskFor, OthersAt, CountAll;
    CodesPerEntry(cfg, w, batch, ticket, pipe);
    assert batch[..|batch|] == batch;
  }

  /** What each reply counts as. */
  lemma RepliesCount(dead: bool)
    ensures CountOf(1, false) == Tally(1, 0, 0, 0) && CountOf(1, true) == Tally(0, 0, 1, 0)
    ensures CountOf(0, dead) == Tally(0, 1, 0, 0) && CountOf(-1, dead) == Tally(0, 0, 0, 1)
  {
  }

  /**
    The claiming part: nothing at all until a second after the last claim; and then the cursor and the reclaimed count
    move as soon as the claim is answered, the time of the last claim only once its batch went well.
   */
  lemma ClaimRoundExactly(cfg: Config, w: World, owner: string, me: Memory, weather: Weather)
    ensures var o := ClaimRound(cfg, w, owner, me, weather);
            var scan := ClaimIds(cfg, w, me.cursor, cfg.batch);
            if w.now < me.lastClaim + 1000 then o == RoundOutcome(w, me, true)
            else if weather.claim == Unsent || w.group.None? then o == RoundOutcome(w, me, false)
            else if weather.claim == ReplyLost then
              o == RoundOutcome(AutoClaim(cfg, w, owner, me.cursor, cfg.batch), me, false)
            else
              && o.memory.cursor == scan.next && o.memory.reclaimed == me.reclaimed + |scan.claimed|
              && o.memory.lastClaim == (if o.ok then o.world.now else me.lastClaim)
              && o.memory.ready == me.ready && o.memory.errors == me.errors
  {
    hide ProcessBatch, ClaimIds, AutoClaim, Holding;
  }

  /** The reading part leaves the worker's memory alone but for what it counts. */
  lemma ReadRoundExactly(cfg: Config, w: World, owner: string, me: Memory, weather: Weather)
    ensures var o := ReadRound(cfg, w, owner, me, weather);
            && o.memory == me.(tally := o.memory.tally)
            && (weather.read == Unsent || w.group.None? ==> o == RoundOutcome(w, me, false))
            && (weather.read == ReplyLost && w.group.Some? ==>
                  o == RoundOutcome(ReadGroup(w, owner, cfg.batch), me, false))
  {
    hide ProcessBatch, ReadIds, ReadGroup, Holding;
  }

  /**
    A round that goes well leaves the worker ready. One that fails leaves it not ready with one more error, and with a
    group to read from if the attempt to create it got through. When the claiming part fails nothing is read.
   */
  lemma RoundReports(cfg: Config, w: World, owner: string, me: Memory, weather: Weather)
    ensures var o := Round(cfg, w, owner, me, weather);
            var claim := ClaimRound(cfg, w, owner, me, weather);
            && o.memory.errors == me.errors + (if o.ok then 0 else 1)
            && (o.memory.ready <==> o.ok)
            && o.memory.cursor == claim.memory.cursor && o.memory.lastClaim == claim.memory.lastClaim
            && o.memory.reclaimed == claim.memory.reclaimed
            && (!o.ok && weather.regroup != Unsent ==> o.world.group.Some?)
            && (!claim.ok ==>
                  !o.ok && o.memory.tally == claim.memory.tally &&
                  o.world == (if weather.regroup == Unsent then Run(cfg, claim.world, weather.beforeRegroup)
                              else EnsureGroup(Run(cfg, claim.world, weather.beforeRegroup))))
  {
    hide ClaimRound, ReadRound, Run;
    var claim := ClaimRound(cfg, w, owner, me, weather);
    ClaimKeepsReport(cfg, w, owner, me, weather);
    ReadRoundExactly(cfg, Run(cfg, claim.world, weather.beforeRead), owner, claim.memory, weather);
  }

  lemma ClaimKeepsReport(cfg: Config, w: World, owner: string, me: Memory, weather: Weather)
    ensures var o := ClaimRound(cfg, w, owner, me, weather); o.memory.ready == me.ready && o.memory.errors == me.errors
  {
    hide ProcessBatch, ClaimIds, AutoClaim, Holding;
  }

  lemma ClaimedInStream(cfg: Config, w: World, cursor: nat)
    requires Conserved(w) && w.group.Some?
    ensures forall id :: id in ClaimIds(cfg, w, cursor, cfg.batch).claimed ==> id in w.stream && id in w.pending
  {
    hide ClaimScan;
    ClaimScanWithin(cfg, w, FromCursor(w, cursor), cfg.batch, ATTEMPTS_PER_CLAIM * cfg.batch);
    var ids := ClaimIds(cfg, w, cursor, cfg.batch).claimed;
    forall id | id in ids ensures id in w.stream && id in w.pending {
      assert id in SetOf(ids);
      assert id in w.pending.Keys;
    }
  }

  lemma ReadInStream(w: World, count: nat)
    ensures forall id :: id in ReadIds(w, count) ==> id in w.stream
  {
    FirstKLowest(Undelivered(w), count);
    forall id | id in ReadIds(w, count) ensures id in w.stream {
      assert id in SetOf(ReadIds(w, count));
    }
  }
}
